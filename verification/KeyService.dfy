/** The key service as it is written: ValidateKey and RevokeKey call the cache and the tables one
    after the other, and between two calls time passes and others act. Every method is proved to be
    a part of a run of the key cache protocol. */
module KeyService {
  import opened GoText
  import opened KeyCacheProtocol
  import opened Runs
  import KA = KeyAnswers
  import KT = KeyCacheTheorems

  datatype Actor = Validator(v: nat) | Revoker(r: nat)

  predicate Moves(a: Action, actor: Actor) {
    match actor
    case Validator(v) => (a.Validate? || a.Call?) && a.v == v
    case Revoker(r) => (a.Revoke? || a.RevokeCall?) && a.r == r
  }

  ghost predicate SamePosition(actor: Actor, s: State, s': State) {
    match actor
    case Validator(v) => v in s.validations && v in s'.validations && s'.validations[v] == s.validations[v]
    case Revoker(r) => r in s.revocations && r in s'.revocations && s'.revocations[r] == s.revocations[r]
  }

  lemma StepKeepsOthers(actor: Actor, s: State, a: Action)
    requires SamePosition(actor, s, s) && !Moves(a, actor)
    ensures SamePosition(actor, s, Step(s, a))
  {
  }

  lemma {:induction false} OthersKeepPosition(actor: Actor, s: State, actions: seq<Action>)
    requires SamePosition(actor, s, s)
    requires forall a :: a in actions ==> !Moves(a, actor)
    ensures SamePosition(actor, s, Run(Step, s, actions))
    decreases |actions|
  {
    if actions != [] {
      var n := |actions| - 1;
      OthersKeepPosition(actor, s, actions[..n]);
      assert actions[n] in actions;
      StepKeepsOthers(actor, Run(Step, s, actions[..n]), actions[n]);
    }
  }

  /** A run that others make leads to a state in which this actor stands where it stood. */
  lemma OthersRun(actor: Actor, normalize: Symbol -> Symbol, start: int, before: seq<Action>, more: seq<Action>)
    requires SamePosition(actor, Reach(normalize, start, before), Reach(normalize, start, before))
    requires forall a :: a in more ==> !Moves(a, actor)
    ensures var s, s' := Reach(normalize, start, before), Run(Step, Reach(normalize, start, before), more);
            s' == Reach(normalize, start, before + more) && SamePosition(actor, s, s') && s'.normalize == normalize
  {
    RunConcat(Step, Init(normalize, start), before, more);
    OthersKeepPosition(actor, Reach(normalize, start, before), more);
    KT.Later(normalize, start, [], before + more);
  }

  /** What the cache write makes of the state. */
  lemma StoreCall(s: State, v: nat, key: Key, loadedAt: int, ttl: int, o: Outcome)
    requires v in s.validations && s.validations[v].pc == SetCache(key, loadedAt, ttl) && 0 < ttl
    ensures ValidationStep(s, v, o)
            == ValidationAt(if o == FailsBefore then s else Cached(s, key, loadedAt, ttl), v, Done(Accepted(key.merchantId, key.scope)))
  {
  }

  /** The entry dies when the time to live is over, counted in whole milliseconds and at least one. */
  predicate EntryStored(cache: map<Symbol, Entry>, cache': map<Symbol, Entry>, key: Key, now: int, ttl: int, o: Outcome) {
    if o == FailsBefore then cache' == cache
    else
      && key.hash in cache' && cache' == cache[key.hash := cache'[key.hash]]
      && cache'[key.hash].merchantId == key.merchantId && cache'[key.hash].scope == key.scope
      && var life := cache'[key.hash].deadline - now;
         life % MILLISECOND == 0 && (if ttl < MILLISECOND then life == MILLISECOND else life <= ttl < life + MILLISECOND)
  }

  lemma EntryIsStored(s: State, v: nat, key: Key, loadedAt: int, ttl: int, o: Outcome)
    requires v in s.validations && s.validations[v].pc == SetCache(key, loadedAt, ttl) && 0 < ttl
    ensures EntryStored(s.cache, Step(s, Call(v, o)).cache, key, s.now, ttl, o)
  {
    StoreCall(s, v, key, loadedAt, ttl, o);
    WholeMilliseconds(ttl);
  }

  lemma WholeMilliseconds(ttl: int)
    requires 0 < ttl
    ensures RedisTtl(ttl) % MILLISECOND == 0
    ensures if ttl < MILLISECOND then RedisTtl(ttl) == MILLISECOND else RedisTtl(ttl) <= ttl < RedisTtl(ttl) + MILLISECOND
  {
  }

  class KeyService {
    const normalize: Symbol -> Symbol
    const start: int
    var now: int
    var keys: map<Symbol, Key>
    var byHash: map<Symbol, Symbol>
    var revoked: map<Symbol, int>
    var cache: map<Symbol, Entry>
    // The longest delay so far, where each call stands, and the run all of them make up.
    var slowest: int
    var validations: map<nat, Validation>
    var revocations: map<nat, Revocation>
    ghost var trace: seq<Action>

    constructor (normalize: Symbol -> Symbol, start: int)
      ensures Valid() && trace == [] && World() == Init(normalize, start)
    {
      this.normalize, this.start, now, slowest := normalize, start, start, 0;
      keys, byHash, revoked, cache, validations, revocations, trace := map[], map[], map[], map[], map[], map[], [];
    }

    function World(): State
      reads this
    {
      State(normalize, now, keys, byHash, revoked, cache, slowest, validations, revocations)
    }

    ghost predicate Valid()
      reads this
    {
      World() == Reach(normalize, start, trace)
    }

    /** Time passes, and others make any number of steps. */
    method Others(actor: Actor)
      requires Valid() && SamePosition(actor, World(), World())
      modifies this
      ensures Valid() && old(trace) <= trace && SamePosition(actor, old(World()), World())
    {
      var more: seq<Action> := *;
      if forall a | a in more :: !Moves(a, actor) {
        var s := Run(Step, World(), more);
        OthersRun(actor, normalize, start, trace, more);
        now, keys, byHash, revoked, cache := s.now, s.keys, s.byHash, s.revoked, s.cache;
        slowest, validations, revocations := s.slowest, s.validations, s.revocations;
        assert World() == s;
        trace := trace + more;
      }
    }

    /** The step just made is recorded, and others go on. */
    method Yield(actor: Actor, ghost s: State, ghost a: Action)
      requires s == Reach(normalize, start, trace) && World() == Step(s, a)
      requires SamePosition(actor, World(), World())
      modifies this
      ensures Valid() && old(trace) + [a] <= trace && SamePosition(actor, old(World()), World())
    {
      ghost var one := [a];
      assert (trace + one)[..|trace|] == trace;
      trace := trace + one;
      Others(actor);
    }

    // ---------- ValidateKey ----------

    ghost predicate At(v: nat, hash: Symbol, pc: ValidationPc)
      reads this
    {
      v in validations && validations[v] == Validation(hash, pc)
    }

    method MoveTo(v: nat, hash: Symbol, pc: ValidationPc, ghost s: State, ghost o: Outcome)
      requires s == Reach(normalize, start, trace) && v in s.validations && s.validations[v].hash == hash && v in validations
      requires World().(validations := validations[v := Validation(hash, pc)]) == ValidationStep(s, v, o)
      modifies this
      ensures Valid() && old(trace) + [Call(v, o)] <= trace && At(v, hash, pc)
    {
      validations := validations[v := Validation(hash, pc)];
      Yield(Validator(v), s, Call(v, o));
    }

    /** The cache read. An entry without a merchant, or past its deadline, is no hit. */
    method ReadEntry(v: nat, hash: Symbol) returns (hit: bool, r: Result)
      requires Valid() && At(v, hash, ReadCache)
      modifies this
      ensures Valid() && old(trace) <= trace && At(v, hash, if hit then Done(r) else CheckRevoked)
      ensures hit ==> KT.AcceptedFromCache(old(World()), v) && r == FromCache(old(cache)[hash])
    {
      var o: Outcome := *;
      hit := false;
      r := Errored;
      if o == Succeeds && hash in cache && now < cache[hash].deadline {
        var entry := cache[hash];
        if entry.merchantId != 0 {
          hit := true;
          r := Accepted(entry.merchantId, if entry.scope == 0 then FullScope() else entry.scope);
        }
      }
      MoveTo(v, hash, if hit then Done(r) else CheckRevoked, World(), o);
    }

    method IsRevoked(v: nat, hash: Symbol) returns (ok: bool, isRevoked: bool)
      requires Valid() && At(v, hash, CheckRevoked)
      modifies this
      ensures Valid() && old(trace) <= trace
      ensures At(v, hash, if !ok then Done(Errored) else if isRevoked then Done(RevokedKey) else LoadKey)
      ensures ok ==> isRevoked == (hash in old(revoked))
    {
      var o: Outcome := *;
      ok := o == Succeeds;
      isRevoked := hash in revoked;
      MoveTo(v, hash, if !ok then Done(Errored) else if isRevoked then Done(RevokedKey) else LoadKey, World(), o);
    }

    /** GetByHash, with the check of is_active that follows it. */
    method LoadActive(v: nat, hash: Symbol) returns (r: Result, key: Key, loadedAt: int, ghost o: Outcome)
      requires Valid() && At(v, hash, LoadKey)
      modifies this
      ensures Valid() && old(trace) + [Call(v, o)] <= trace
      ensures r == Errored <==> o != Succeeds
      ensures r == InvalidKey <==> o == Succeeds && !(hash in old(byHash) && old(byHash)[hash] in old(keys)
                                                      && old(keys)[old(byHash)[hash]].isActive)
      ensures r.Accepted? ==> key == old(keys)[old(byHash)[hash]]
      ensures At(v, hash, if r.Accepted? then CheckExpiry(key, loadedAt) else Done(r))
      ensures r.Accepted? ==> key.isActive && loadedAt == old(now) && r == Accepted(key.merchantId, key.scope)
    {
      ghost var s := World();
      var outcome: Outcome := *;
      o := outcome;
      r, loadedAt := Errored, now;
      key := Key(0, hash, 0, 0, false, Never);
      if outcome == Succeeds {
        r := InvalidKey;
        if hash in byHash && byHash[hash] in keys {
          key := keys[byHash[hash]];
          if key.isActive {
            r := Accepted(key.merchantId, key.scope);
          }
        }
      }
      MoveTo(v, hash, if r.Accepted? then CheckExpiry(key, loadedAt) else Done(r), s, o);
    }

    /** The comparison with the clock, and the time to live computed from a later look at it. */
    method CheckClock(v: nat, hash: Symbol, key: Key, loadedAt: int) returns (live: bool, ttl: int)
      requires Valid() && At(v, hash, CheckExpiry(key, loadedAt))
      modifies this
      ensures Valid() && old(trace) <= trace
      ensures At(v, hash, if live then SetCache(key, loadedAt, ttl) else Done(InvalidKey))
      ensures live <==> (key.expiresAt.At? ==> old(now) < key.expiresAt.t)
      ensures live ==> 0 < ttl <= FALLBACK
    {
      ttl := 0;
      live := !(key.expiresAt.At? && key.expiresAt.t <= now);
      MoveTo(v, hash, if live then ComputeTtl(key, loadedAt) else Done(InvalidKey), World(), Succeeds);
      if live {
        ttl := KeyValidationCacheTtl(key.expiresAt, now);
        MoveTo(v, hash, SetCache(key, loadedAt, ttl), World(), Succeeds);
      }
    }

    /** The cache write; an error does not matter. */
    method StoreEntry(v: nat, hash: Symbol, key: Key, loadedAt: int, ttl: int) returns (ghost o: Outcome)
      requires Valid() && At(v, hash, SetCache(key, loadedAt, ttl)) && 0 < ttl
      modifies this
      ensures Valid() && old(trace) + [Call(v, o)] <= trace && At(v, hash, Done(Accepted(key.merchantId, key.scope)))
      ensures EntryStored(old(cache), Reach(normalize, start, old(trace) + [Call(v, o)]).cache, key, old(now), ttl, o)
    {
      ghost var s, before := World(), trace;
      var outcome: Outcome := *;
      o := outcome;
      if outcome != FailsBefore {
        cache := cache[key.hash := Entry(key.merchantId, key.scope, now + RedisTtl(ttl))];
        slowest := if slowest < now - loadedAt then now - loadedAt else slowest;
      }
      StoreCall(s, v, key, loadedAt, ttl, o);
      EntryIsStored(s, v, key, loadedAt, ttl, o);
      KT.ReachSnoc(normalize, start, before, Call(v, o));
      MoveTo(v, hash, Done(Accepted(key.merchantId, key.scope)), s, o);
    }

    /** The part of ValidateKey behind the cache. */
    method ValidateAfresh(v: nat, hash: Symbol) returns (r: Result)
      requires Valid() && At(v, hash, CheckRevoked)
      modifies this
      ensures Valid() && old(trace) <= trace && At(v, hash, Done(r))
      ensures r.Accepted? ==> KT.Timely(World(), hash, r, old(now))
    {
      ghost var before := trace;
      var ok, isRevoked := IsRevoked(v, hash);
      if !ok {
        return Errored;
      } else if isRevoked {
        return RevokedKey;
      }
      KT.Later(normalize, start, before, trace);
      var key, loadedAt; ghost var o;
      r, key, loadedAt, o := LoadActive(v, hash);
      if !r.Accepted? {
        return;
      }
      r := CacheAndAccept(v, hash, key, loadedAt);
      if r.Accepted? {
        KT.TimelyEarlier(World(), hash, r, loadedAt, old(now));
      }
    }

    /** The part behind the key row: the clock, and the cache. */
    method CacheAndAccept(v: nat, hash: Symbol, key: Key, loadedAt: int) returns (r: Result)
      requires Valid() && At(v, hash, CheckExpiry(key, loadedAt))
      modifies this
      ensures Valid() && old(trace) <= trace && At(v, hash, Done(r))
      ensures r.Accepted? ==> r == Accepted(key.merchantId, key.scope) && KT.Timely(World(), hash, r, loadedAt)
    {
      var live, ttl := CheckClock(v, hash, key, loadedAt);
      if !live {
        return InvalidKey;
      }
      r := Accepted(key.merchantId, key.scope);
      JustLoaded(v, hash, key, loadedAt, ttl);
      ghost var stored := trace;
      ghost var o := StoreEntry(v, hash, key, loadedAt, ttl);
      StaysTimely(stored, hash, r, loadedAt);
    }

    lemma JustLoaded(v: nat, hash: Symbol, key: Key, loadedAt: int, ttl: int)
      requires Valid() && At(v, hash, SetCache(key, loadedAt, ttl))
      ensures KT.Timely(World(), hash, Accepted(key.merchantId, key.scope), loadedAt) && loadedAt <= now
    {
      KT.ReachableIsGood(normalize, start, trace);
      assert KT.ValidationOk(World(), World().validations[v]);
      KT.LoadedIsTimely(World(), hash, key, loadedAt);
    }

    lemma StaysTimely(before: seq<Action>, hash: Symbol, r: Result, t: int)
      requires Valid() && before <= trace && t <= Reach(normalize, start, before).now
      requires KT.Timely(Reach(normalize, start, before), hash, r, t)
      ensures KT.Timely(World(), hash, r, t)
    {
      KT.Later(normalize, start, before, trace);
      KT.TimelyCarries(Reach(normalize, start, before), World(), hash, r, t);
    }

    method Begin(v: nat, hash: Symbol)
      requires Valid() && v !in validations
      modifies this
      ensures Valid() && old(trace) <= trace && At(v, hash, ReadCache)
    {
      ghost var s := World();
      validations := validations[v := Validation(hash, ReadCache)];
      Yield(Validator(v), s, Validate(v, hash));
    }

    /** ValidateKey accepts a key only under its own merchant and scope, and never when it was asked
        30 seconds plus the longest delay after the key's revocation was committed, or one second
        plus that delay after it expired. */
    method ValidateKey(v: nat, hash: Symbol) returns (r: Result)
      requires Valid() && v !in validations
      modifies this
      ensures Valid() && old(trace) <= trace && At(v, hash, Done(r))
      ensures r.Accepted? ==> KT.Timely(World(), hash, r, old(now))
      ensures exists i :: KA.ReasonAt(normalize, start, trace, v, r, i)
    {
      ghost var asked := trace;
      Begin(v, hash);
      KT.Later(normalize, start, asked, trace);
      ghost var began := trace;
      var hit;
      hit, r := ReadEntry(v, hash);
      if hit {
        KT.CacheIsNotTooStale(normalize, start, began, v);
        StaysTimely(began, hash, r, Reach(normalize, start, began).now);
      } else {
        KT.Later(normalize, start, began, trace);
        r := ValidateAfresh(v, hash);
      }
      ghost var i := KA.AnswerHasReason(normalize, start, trace, v, r);
    }

    // ---------- RevokeKey ----------

    ghost predicate Revoking(r: nat, id: Symbol, pc: RevocationPc)
      reads this
    {
      r in revocations && revocations[r] == Revocation(id, pc)
    }

    method Proceed(r: nat, id: Symbol, pc: RevocationPc, ghost s: State, ghost o: Outcome)
      requires s == Reach(normalize, start, trace) && r in s.revocations && s.revocations[r].id == id && r in revocations
      requires World().(revocations := revocations[r := Revocation(id, pc)]) == RevocationStep(s, r, o)
      modifies this
      ensures Valid() && old(trace) + [RevokeCall(r, o)] <= trace && Revoking(r, id, pc)
    {
      revocations := revocations[r := Revocation(id, pc)];
      Yield(Revoker(r), s, RevokeCall(r, o));
    }

    method FindById(r: nat, id: Symbol) returns (pc: RevocationPc)
      requires Valid() && Revoking(r, id, Find)
      modifies this
      ensures Valid() && old(trace) <= trace && Revoking(r, id, pc)
      ensures pc.Commit? || pc == Over(true, false) || (pc == Over(false, false) && id !in old(keys))
    {
      var o: Outcome := *;
      if o != Succeeds {
        pc := Over(true, false);
      } else if id !in keys {
        pc := Over(false, false);
      } else {
        pc := Commit(keys[id].hash);
      }
      Proceed(r, id, pc, World(), o);
    }

    /** The transaction: the row is deactivated and the hash listed as revoked, or neither; and both,
        if it reports success. */
    method CommitRevocation(r: nat, id: Symbol, hash: Symbol) returns (ok: bool, ghost o: Outcome)
      requires Valid() && Revoking(r, id, Commit(hash))
      modifies this
      ensures Valid() && old(trace) + [RevokeCall(r, o)] <= trace
      ensures Revoking(r, id, if ok then Delete(hash) else Over(true, false))
      ensures var next := Reach(normalize, start, old(trace) + [RevokeCall(r, o)]);
              || (!ok && next.keys == old(keys) && next.revoked == old(revoked))
              || (&& id in old(keys) && hash !in old(revoked)
                  && next.keys == old(keys)[id := old(keys)[id].(isActive := false)]
                  && next.revoked == old(revoked)[hash := old(now)])
    {
      ghost var s := World();
      KT.ReachableIsGood(normalize, start, trace);
      assert KT.RevocationOk(s, s.revocations[r]);
      var answer: Outcome := *;
      o := answer;
      var free := hash !in revoked;
      ok := answer == Succeeds && free;
      if free && answer != FailsBefore {
        keys := keys[id := keys[id].(isActive := false)];
        revoked := revoked[hash := now];
      }
      KT.ReachSnoc(normalize, start, trace, RevokeCall(r, o));
      Proceed(r, id, if ok then Delete(hash) else Over(true, false), s, o);
    }

    /** The cache entry is deleted, if the call takes effect; an error does not matter. */
    method DeleteEntry(r: nat, id: Symbol, hash: Symbol) returns (ghost o: Outcome)
      requires Valid() && Revoking(r, id, Delete(hash))
      modifies this
      ensures Valid() && old(trace) + [RevokeCall(r, o)] <= trace && Revoking(r, id, Over(true, true))
      ensures Reach(normalize, start, old(trace) + [RevokeCall(r, o)]).cache
              == if o == FailsBefore then old(cache) else old(cache) - {hash}
      ensures hash in byHash && byHash[hash] in keys && !keys[byHash[hash]].isActive && hash in revoked
    {
      ghost var s := World();
      KT.ReachableIsGood(normalize, start, trace);
      assert KT.RevocationOk(s, s.revocations[r]) && KT.RevokedRow(s, hash);
      var outcome: Outcome := *;
      o := outcome;
      if outcome != FailsBefore {
        cache := cache - {hash};
      }
      ghost var before := trace;
      KT.ReachSnoc(normalize, start, before, RevokeCall(r, o));
      Proceed(r, id, Over(true, true), s, o);
      KT.Later(normalize, start, before, trace);
      assert KT.RevokedRow(World(), hash);
    }

    /** The part of RevokeKey from the transaction on. */
    method RevokeFound(r: nat, id: Symbol, hash: Symbol) returns (ok: bool)
      requires Valid() && Revoking(r, id, Commit(hash))
      modifies this
      ensures Valid() && old(trace) <= trace && Revoking(r, id, Over(true, ok))
      ensures ok ==> hash in byHash && byHash[hash] in keys && !keys[byHash[hash]].isActive && hash in revoked
    {
      ghost var o;
      ok, o := CommitRevocation(r, id, hash);
      if ok {
        o := DeleteEntry(r, id, hash);
      }
    }

    /** RevokeKey. Whether or not the cache entry could be deleted, a success means that the row is
        inactive and the hash on the list. */
    method RevokeKey(r: nat, id: Symbol) returns (found: bool, ok: bool, hash: Symbol)
      requires Valid() && r !in revocations
      modifies this
      ensures Valid() && old(trace) <= trace && Revoking(r, id, Over(found, ok))
      ensures !found ==> id !in old(keys)
      ensures exists i :: KA.RevocationReasonAt(normalize, start, trace, r, found, ok, i)
      ensures ok ==> hash in byHash && byHash[hash] in keys && !keys[byHash[hash]].isActive && hash in revoked
    {
      ghost var s := World();
      revocations := revocations[r := Revocation(id, Find)];
      ghost var asked := trace;
      Yield(Revoker(r), s, Revoke(r, id));
      KT.Later(normalize, start, asked, trace);
      var pc := FindById(r, id);
      found, ok, hash := true, false, 0;
      if pc.Over? {
        found := pc.found;
      } else {
        hash := pc.hash;
        ok := RevokeFound(r, id, hash);
      }
      ghost var i := KA.RevocationHasReason(normalize, start, trace, r, found, ok);
    }
  }
}
