/** How stale a cached validation can be: bounds for revocation and for expiry, over every run, and
    runs that reach them. */
module KeyCacheTheorems {
  import opened GoText
  import opened KeyCacheProtocol
  import opened Runs

  // ---------- invariant ----------

  /** The key as it was created. */
  function Origin(key: Key): Key {
    key.(isActive := true)
  }

  /** The row that a hash leads to. */
  predicate IsRow(s: State, hash: Symbol, key: Key) {
    && hash in s.byHash && s.byHash[hash] in s.keys && key.hash == hash
    && Origin(s.keys[s.byHash[hash]]) == Origin(key)
  }

  predicate RevokedRow(s: State, hash: Symbol) {
    hash in s.byHash && s.byHash[hash] in s.keys && !s.keys[s.byHash[hash]].isActive
  }

  predicate NotExpiredBefore(expiry: Expiry, t: int) {
    expiry.At? ==> t < expiry.t
  }

  /** An entry dies in time, whether the key is revoked now or already was, and after it expired. */
  predicate EntryOk(s: State, hash: Symbol, e: Entry) {
    && hash in s.byHash && s.byHash[hash] in s.keys
    && var key := s.keys[s.byHash[hash]];
       && e.merchantId == key.merchantId && e.scope == key.scope
       && e.deadline <= s.now + FALLBACK
       && (hash in s.revoked ==> e.deadline <= s.revoked[hash] + s.slowest + FALLBACK)
       && NotExpiredBefore(key.expiresAt, e.deadline - s.slowest - SECOND)
  }

  /** What a validation read was so when it read it. */
  predicate LoadedOk(s: State, hash: Symbol, key: Key, loadedAt: int) {
    && IsRow(s, hash, key) && loadedAt <= s.now && (hash in s.revoked ==> loadedAt <= s.revoked[hash])
  }

  predicate TtlOk(expiry: Expiry, loadedAt: int, ttl: int) {
    && 0 < ttl <= FALLBACK
    && (expiry.At? && ttl > SECOND ==> loadedAt + ttl <= expiry.t)
  }

  /** The result names the merchant and the scope of the hash's own key. */
  predicate Names(s: State, hash: Symbol, r: Result)
    requires r.Accepted?
  {
    && hash in s.byHash && s.byHash[hash] in s.keys
    && r.merchantId == s.keys[s.byHash[hash]].merchantId && r.scope == s.keys[s.byHash[hash]].scope
  }

  predicate ValidationOk(s: State, v: Validation) {
    match v.pc
    case CheckExpiry(key, loadedAt) => LoadedOk(s, v.hash, key, loadedAt)
    case ComputeTtl(key, loadedAt) => LoadedOk(s, v.hash, key, loadedAt) && NotExpiredBefore(key.expiresAt, loadedAt)
    case SetCache(key, loadedAt, ttl) =>
      LoadedOk(s, v.hash, key, loadedAt) && NotExpiredBefore(key.expiresAt, loadedAt) && TtlOk(key.expiresAt, loadedAt, ttl)
    case Done(result) => result.Accepted? ==> Names(s, v.hash, result)
    case _ => true
  }

  predicate RevocationOk(s: State, r: Revocation) {
    match r.pc
    case Commit(hash) => hash in s.byHash && s.byHash[hash] == r.id
    case Delete(hash) => hash in s.revoked
    case _ => true
  }

  /** A row is found by its hash, and has a merchant and a scope. */
  predicate KeyOk(byHash: map<Symbol, Symbol>, id: Symbol, key: Key) {
    key.id == id && key.hash in byHash && byHash[key.hash] == id && key.merchantId != 0 && key.scope != 0
  }

  ghost predicate Inv(s: State) {
    && 0 <= s.slowest
    && (forall id :: id in s.keys ==> KeyOk(s.byHash, id, s.keys[id]))
    && (forall h :: h in s.byHash ==> s.byHash[h] in s.keys && s.keys[s.byHash[h]].hash == h)
    && (forall h :: h in s.revoked ==> RevokedRow(s, h) && s.revoked[h] <= s.now)
    && (forall h :: h in s.cache ==> EntryOk(s, h, s.cache[h]))
    && (forall v :: v in s.validations ==> ValidationOk(s, s.validations[v]))
    && (forall r :: r in s.revocations ==> RevocationOk(s, s.revocations[r]))
  }

  /** Time passes, keys keep what they were created with, and revocations stay. */
  ghost predicate Grows(s: State, s': State) {
    && s'.normalize == s.normalize && s.now <= s'.now && s.slowest <= s'.slowest
    && (forall id :: id in s.keys ==> id in s'.keys && Origin(s'.keys[id]) == Origin(s.keys[id])
                                      && (s'.keys[id].isActive ==> s.keys[id].isActive))
    && (forall h :: h in s.byHash ==> h in s'.byHash && s'.byHash[h] == s.byHash[h])
    && (forall h :: h in s.revoked ==> h in s'.revoked && s'.revoked[h] == s.revoked[h])
    && (forall h :: h in s'.revoked && h !in s.revoked ==> s.now <= s'.revoked[h])
  }

  ghost predicate Good(s: State, s': State) {
    Inv(s') && Grows(s, s')
  }

  lemma OriginFields(a: Key, b: Key)
    requires Origin(a) == Origin(b)
    ensures a.id == b.id && a.hash == b.hash && a.merchantId == b.merchantId && a.scope == b.scope && a.expiresAt == b.expiresAt
  {
    assert Origin(a).id == a.id && Origin(a).hash == a.hash && Origin(a).merchantId == a.merchantId
           && Origin(a).scope == a.scope && Origin(a).expiresAt == a.expiresAt;
    assert Origin(b).id == b.id && Origin(b).hash == b.hash && Origin(b).merchantId == b.merchantId
           && Origin(b).scope == b.scope && Origin(b).expiresAt == b.expiresAt;
  }

  // ---------- what a step leaves alone carries over ----------

  lemma EntryCarries(s: State, s': State, h: Symbol, e: Entry)
    requires Grows(s, s') && EntryOk(s, h, e) && 0 <= s.slowest
    ensures EntryOk(s', h, e)
  {
    OriginFields(s.keys[s.byHash[h]], s'.keys[s'.byHash[h]]);
  }

  lemma ValidationCarries(s: State, s': State, v: Validation)
    requires Grows(s, s') && ValidationOk(s, v)
    ensures ValidationOk(s', v)
  {
    if v.hash in s.byHash && s.byHash[v.hash] in s.keys {
      OriginFields(s.keys[s.byHash[v.hash]], s'.keys[s'.byHash[v.hash]]);
    }
  }

  lemma AllCarry(s: State, s': State)
    requires Inv(s) && Grows(s, s')
    ensures forall h :: h in s.cache ==> EntryOk(s', h, s.cache[h])
    ensures forall v :: v in s.validations ==> ValidationOk(s', s.validations[v])
    ensures forall r :: r in s.revocations ==> RevocationOk(s', s.revocations[r])
  {
    forall h | h in s.cache ensures EntryOk(s', h, s.cache[h]) { EntryCarries(s, s', h, s.cache[h]); }
    forall v | v in s.validations ensures ValidationOk(s', s.validations[v]) { ValidationCarries(s, s', s.validations[v]); }
  }

  // ---------- steps ----------

  lemma LoadStep(s: State, v: nat, pc: ValidationPc)
    requires Inv(s) && v in s.validations && ValidationOk(s, Validation(s.validations[v].hash, pc))
    ensures Good(s, ValidationAt(s, v, pc))
  {
    AllCarry(s, ValidationAt(s, v, pc));
  }

  lemma TtlIsSound(s: State, hash: Symbol, key: Key, loadedAt: int)
    requires LoadedOk(s, hash, key, loadedAt)
    ensures TtlOk(key.expiresAt, loadedAt, KeyValidationCacheTtl(key.expiresAt, s.now))
  {
  }

  lemma RedisTtlBounds(ttl: int)
    requires 0 < ttl
    ensures RedisTtl(ttl) <= if ttl < MILLISECOND then MILLISECOND else ttl
  {
  }

  /** The write that the bounds are about. */
  lemma CachedStep(s: State, v: nat)
    requires Inv(s) && v in s.validations && s.validations[v].pc.SetCache?
    ensures var pc := s.validations[v].pc; 0 < pc.ttl && Good(s, Cached(s, pc.key, pc.loadedAt, pc.ttl))
  {
    assert ValidationOk(s, s.validations[v]);
    var key, loadedAt, ttl := s.validations[v].pc.key, s.validations[v].pc.loadedAt, s.validations[v].pc.ttl;
    var s' := Cached(s, key, loadedAt, ttl);
    assert Grows(s, s');
    AllCarry(s, s');
    OriginFields(s.keys[s.byHash[key.hash]], key);
    RedisTtlBounds(ttl);
    assert EntryOk(s', key.hash, s'.cache[key.hash]);
  }

  /** What the cache answers is what the key says. */
  lemma HitNamesKey(s: State, hash: Symbol)
    requires Inv(s) && Hit(s, hash)
    ensures Names(s, hash, FromCache(s.cache[hash]))
  {
    assert EntryOk(s, hash, s.cache[hash]);
    assert KeyOk(s.byHash, s.byHash[hash], s.keys[s.byHash[hash]]);
  }

  lemma StoreStep(s: State, v: nat, o: Outcome)
    requires Inv(s) && v in s.validations && s.validations[v].pc.SetCache?
    ensures Good(s, ValidationStep(s, v, o))
  {
    var hash, pc, s' := s.validations[v].hash, s.validations[v].pc, ValidationStep(s, v, o);
    assert ValidationOk(s, s.validations[v]);
    OriginFields(s.keys[s.byHash[hash]], pc.key);
    CachedStep(s, v);
    var written := if o.TakesEffect() then Cached(s, pc.key, pc.loadedAt, pc.ttl) else s;
    LoadStep(written, v, s'.validations[v].pc);
    GrowsTransitive(s, written, s');
  }

  /** A call that writes nothing leads to a place whose facts hold. */
  lemma NextPlaceIsOk(s: State, v: nat, o: Outcome)
    requires Inv(s) && v in s.validations && !s.validations[v].pc.SetCache?
    ensures ValidationOk(s, Validation(s.validations[v].hash, ValidationStep(s, v, o).validations[v].pc))
  {
    var hash, pc := s.validations[v].hash, s.validations[v].pc;
    assert ValidationOk(s, s.validations[v]);
    if pc.ComputeTtl? { TtlIsSound(s, hash, pc.key, pc.loadedAt); }
    if pc.ReadCache? && Hit(s, hash) { HitNamesKey(s, hash); }
  }

  lemma ValidationStepKeeps(s: State, v: nat, o: Outcome)
    requires Inv(s) && v in s.validations
    ensures Good(s, ValidationStep(s, v, o))
  {
    if s.validations[v].pc.SetCache? {
      StoreStep(s, v, o);
    } else {
      NextPlaceIsOk(s, v, o);
      LoadStep(s, v, ValidationStep(s, v, o).validations[v].pc);
    }
  }

  lemma DeactivatedGrows(s: State, id: Symbol, hash: Symbol, o: Outcome)
    ensures Grows(s, Deactivated(s, id, hash, o))
  {
  }

  lemma DeactivatedStep(s: State, id: Symbol, hash: Symbol, o: Outcome)
    requires Inv(s) && hash in s.byHash && s.byHash[hash] == id
    ensures Good(s, Deactivated(s, id, hash, o))
  {
    var s' := Deactivated(s, id, hash, o);
    DeactivatedGrows(s, id, hash, o);
    AllCarry(s, s');
    forall h | h in s'.revoked ensures RevokedRow(s', h) && s'.revoked[h] <= s'.now {
      if h in s.revoked { assert RevokedRow(s, h); }
    }
  }

  /** A revocation goes on to its next call. */
  lemma RevocationMoves(s: State, r: nat, revocation: Revocation)
    requires Inv(s) && RevocationOk(s, revocation)
    ensures Good(s, s.(revocations := s.revocations[r := revocation]))
  {
    AllCarry(s, s.(revocations := s.revocations[r := revocation]));
  }

  lemma EvictStep(s: State, h: Symbol)
    requires Inv(s)
    ensures Good(s, s.(cache := s.cache - {h}))
  {
    AllCarry(s, s.(cache := s.cache - {h}));
  }

  lemma CommitStep(s: State, r: nat, o: Outcome)
    requires Inv(s) && r in s.revocations && s.revocations[r].pc.Commit?
    ensures Good(s, RevocationStep(s, r, o))
  {
    var revocation := s.revocations[r];
    assert RevocationOk(s, revocation);
    var mid := Deactivated(s, revocation.id, revocation.pc.hash, o);
    DeactivatedStep(s, revocation.id, revocation.pc.hash, o);
    var next := RevocationStep(s, r, o).revocations[r];
    RevocationMoves(mid, r, next);
    assert RevocationStep(s, r, o) == mid.(revocations := mid.revocations[r := next]);
    GrowsTransitive(s, mid, RevocationStep(s, r, o));
  }

  lemma DeleteStep(s: State, r: nat, o: Outcome)
    requires Inv(s) && r in s.revocations && s.revocations[r].pc.Delete?
    ensures Good(s, RevocationStep(s, r, o))
  {
    var hash := s.revocations[r].pc.hash;
    var mid := if o.TakesEffect() then s.(cache := s.cache - {hash}) else s;
    EvictStep(s, hash);
    var next := RevocationStep(s, r, o).revocations[r];
    RevocationMoves(mid, r, next);
    assert RevocationStep(s, r, o) == mid.(revocations := mid.revocations[r := next]);
    GrowsTransitive(s, mid, RevocationStep(s, r, o));
  }

  lemma RevocationStepKeeps(s: State, r: nat, o: Outcome)
    requires Inv(s) && r in s.revocations
    ensures Good(s, RevocationStep(s, r, o))
  {
    match s.revocations[r].pc
    case Find => RevocationMoves(s, r, RevocationStep(s, r, o).revocations[r]);
    case Commit(_) => CommitStep(s, r, o);
    case Delete(_) => DeleteStep(s, r, o);
    case Over(_, _) =>
  }

  lemma TickStep(s: State, elapsed: nat)
    requires Inv(s)
    ensures Good(s, s.(now := s.now + elapsed))
  {
    AllCarry(s, s.(now := s.now + elapsed));
  }

  lemma CreateKeyStep(s: State, key: Key)
    requires Inv(s) && key.id !in s.keys && key.hash !in s.byHash && key.merchantId != 0 && key.scope != 0
    ensures Good(s, s.(keys := s.keys[key.id := key], byHash := s.byHash[key.hash := key.id]))
  {
    var s' := s.(keys := s.keys[key.id := key], byHash := s.byHash[key.hash := key.id]);
    AllCarry(s, s');
    forall h | h in s'.revoked ensures RevokedRow(s', h) { assert RevokedRow(s, h); }
  }

  lemma ValidationStarts(s: State, v: nat, hash: Symbol)
    requires Inv(s)
    ensures Good(s, s.(validations := s.validations[v := Validation(hash, ReadCache)]))
  {
    AllCarry(s, s.(validations := s.validations[v := Validation(hash, ReadCache)]));
  }

  /** The steps that start something, and those of nobody in particular. */
  lemma OpeningStepKeeps(s: State, a: Action)
    requires Inv(s) && !a.Call? && !a.RevokeCall?
    ensures Good(s, Step(s, a))
  {
    match a
    case Tick(elapsed) => TickStep(s, elapsed);
    case CreateKey(key, asked) =>
      if Step(s, a) != s { CreateKeyStep(s, key.(scope := s.normalize(asked))); }
    case Evict(hash) => EvictStep(s, hash);
    case Validate(v, hash) => if v !in s.validations { ValidationStarts(s, v, hash); }
    case Revoke(r, id) => if r !in s.revocations { RevocationMoves(s, r, Revocation(id, Find)); }
  }

  lemma StepKeepsInvariant(s: State, a: Action)
    requires Inv(s)
    ensures Good(s, Step(s, a))
  {
    if a.Call? {
      if a.v in s.validations { ValidationStepKeeps(s, a.v, a.outcome); }
    } else if a.RevokeCall? {
      if a.r in s.revocations { RevocationStepKeeps(s, a.r, a.outcome); }
    } else {
      OpeningStepKeeps(s, a);
    }
  }

  lemma GrowsTransitive(x: State, y: State, z: State)
    requires Grows(x, y) && Grows(y, z)
    ensures Grows(x, z)
  {
  }

  lemma RunsAreGood(s: State, actions: seq<Action>)
    requires Inv(s)
    ensures Good(s, Run(Step, s, actions))
  {
    forall x: State, a: Action | Inv(x) ensures Good(x, Step(x, a)) { StepKeepsInvariant(x, a); }
    forall x, y, z: State | Grows(x, y) && Grows(y, z) ensures Grows(x, z) { GrowsTransitive(x, y, z); }
    RelationOfRun(Step, Inv, Grows, s, actions);
  }

  lemma ReachableIsGood(normalize: Symbol -> Symbol, start: int, actions: seq<Action>)
    ensures Inv(Reach(normalize, start, actions))
  {
    RunsAreGood(Init(normalize, start), actions);
  }

  lemma ReachSnoc(normalize: Symbol -> Symbol, start: int, before: seq<Action>, last: Action)
    ensures Reach(normalize, start, before + [last]) == Step(Reach(normalize, start, before), last)
  {
    RunSnoc(Step, Init(normalize, start), before, last);
  }

  lemma Later(normalize: Symbol -> Symbol, start: int, before: seq<Action>, after: seq<Action>)
    requires before <= after
    ensures Inv(Reach(normalize, start, before)) && Good(Reach(normalize, start, before), Reach(normalize, start, after))
  {
    ReachableIsGood(normalize, start, before);
    var rest := after[|before|..];
    assert before + rest == after;
    RunConcat(Step, Init(normalize, start), before, rest);
    RunsAreGood(Reach(normalize, start, before), rest);
  }

  // ---------- bounded staleness ----------

  /** In state s, accepting the key with this result is right for a request that began at time t: it
      names the key's own merchant and scope, and neither the key's revocation nor its expiry lies
      too far back. */
  predicate Timely(s: State, hash: Symbol, r: Result, t: int) {
    && r.Accepted? && hash in s.byHash && s.byHash[hash] in s.keys
    && var key := s.keys[s.byHash[hash]];
       && r.merchantId == key.merchantId && r.scope == key.scope
       && (hash in s.revoked ==> t < s.revoked[hash] + s.slowest + 30 * SECOND)
       && (key.expiresAt.At? ==> t < key.expiresAt.t + s.slowest + SECOND)
  }

  lemma TimelyCarries(s: State, s': State, hash: Symbol, r: Result, t: int)
    requires Timely(s, hash, r, t) && Grows(s, s') && t <= s.now && 0 <= s.slowest
    ensures Timely(s', hash, r, t)
  {
    OriginFields(s.keys[s.byHash[hash]], s'.keys[s'.byHash[hash]]);
  }

  lemma TimelyEarlier(s: State, hash: Symbol, r: Result, t: int, asked: int)
    requires Timely(s, hash, r, t) && asked <= t
    ensures Timely(s, hash, r, asked)
  {
  }

  lemma LoadedIsTimely(s: State, hash: Symbol, key: Key, loadedAt: int)
    requires LoadedOk(s, hash, key, loadedAt) && NotExpiredBefore(key.expiresAt, loadedAt) && 0 <= s.slowest
    ensures Timely(s, hash, Accepted(key.merchantId, key.scope), loadedAt)
  {
    OriginFields(s.keys[s.byHash[hash]], key);
  }

  /** A validation whose next call is the cache read, and whose cache read succeeds, is accepted
      exactly on a hit. */
  predicate AcceptedFromCache(s: State, v: nat) {
    && v in s.validations && s.validations[v].pc == ReadCache
    && ValidationStep(s, v, Succeeds).validations[v].pc.Done?
  }

  /** In any run: no validation is accepted from the cache 30 seconds plus `slowest` after the key's
      revocation was committed, whether or not the revocation could delete the entry, and none one
      second plus `slowest` after the key expired. What it is told is the key's own merchant and
      scope. Here `slowest` is the longest time that any validation let pass between reading the key
      row and writing the cache. */
  lemma CacheIsNotTooStale(normalize: Symbol -> Symbol, start: int, actions: seq<Action>, v: nat)
    requires AcceptedFromCache(Reach(normalize, start, actions), v)
    ensures var s := Reach(normalize, start, actions);
            var next := ValidationStep(s, v, Succeeds).validations[v].pc;
            Timely(s, s.validations[v].hash, next.result, s.now)
  {
    ReachableIsGood(normalize, start, actions);
    var s := Reach(normalize, start, actions);
    assert EntryOk(s, s.validations[v].hash, s.cache[s.validations[v].hash]);
    HitNamesKey(s, s.validations[v].hash);
  }

  /** The validation is past the cache and was not accepted, and has not read the row yet. */
  predicate Doomed(s: State, v: nat) {
    && v in s.validations && s.validations[v].hash in s.revoked
    && (s.validations[v].pc in {CheckRevoked, LoadKey} || (s.validations[v].pc.Done? && !s.validations[v].pc.result.Accepted?))
  }

  lemma DoomedStep(s: State, a: Action, v: nat)
    requires Inv(s) && Doomed(s, v)
    ensures Doomed(Step(s, a), v) && Step(s, a).validations[v].hash == s.validations[v].hash
  {
    StepKeepsInvariant(s, a);
    assert RevokedRow(s, s.validations[v].hash);
    if a.Call? && a.v in s.validations { CallWrites(s, a.v, a.outcome); }
    if a.RevokeCall? { assert Step(s, a).validations == s.validations; }
  }

  lemma CallWrites(s: State, v: nat, o: Outcome)
    requires v in s.validations
    ensures var s' := ValidationStep(s, v, o);
            && s'.validations.Keys == s.validations.Keys && s'.validations[v].hash == s.validations[v].hash
            && (forall w :: w in s.validations && w != v ==> s'.validations[w] == s.validations[w])
            && s'.revoked == s.revoked
  {
  }

  lemma {:induction false} DoomedStays(s: State, actions: seq<Action>, v: nat)
    requires Inv(s) && Doomed(s, v)
    ensures Doomed(Run(Step, s, actions), v)
    decreases |actions|
  {
    if actions != [] {
      var n := |actions| - 1;
      DoomedStays(s, actions[..n], v);
      RunsAreGood(s, actions[..n]);
      DoomedStep(Run(Step, s, actions[..n]), actions[n], v);
    }
  }

  /** Past the cache nothing is stale: a validation that has yet to read the key row when the
      revocation is committed is never accepted, however the run goes on. */
  lemma RevokedIsRejectedAfresh(normalize: Symbol -> Symbol, start: int, before: seq<Action>, after: seq<Action>, v: nat)
    requires Doomed(Reach(normalize, start, before), v)
    ensures Doomed(Reach(normalize, start, before + after), v)
  {
    ReachableIsGood(normalize, start, before);
    RunConcat(Step, Init(normalize, start), before, after);
    DoomedStays(Reach(normalize, start, before), after, v);
  }

  /** A hit tells what the key itself says, and so does a validation that goes past the cache and is
      accepted: the two never disagree. */
  lemma HitAndMissAgree(normalize: Symbol -> Symbol, start: int, actions: seq<Action>, v: nat, w: nat)
    requires var s := Reach(normalize, start, actions);
             && AcceptedFromCache(s, v)
             && w in s.validations && s.validations[w].hash == s.validations[v].hash
             && s.validations[w].pc.Done? && s.validations[w].pc.result.Accepted?
    ensures var s := Reach(normalize, start, actions);
            ValidationStep(s, v, Succeeds).validations[v].pc.result == s.validations[w].pc.result
  {
    CacheIsNotTooStale(normalize, start, actions, v);
    ReachableIsGood(normalize, start, actions);
    assert ValidationOk(Reach(normalize, start, actions), Reach(normalize, start, actions).validations[w]);
  }

  // ---------- the bound is reached ----------

  function Created(normalize: Symbol -> Symbol, start: int, key: Key): State {
    State(normalize, start, map[key.id := key], map[key.hash := key.id], map[], map[], 0, map[], map[])
  }

  /** A validation has read the row of the key and was overtaken by its revocation. */
  function Overtaken(normalize: Symbol -> Symbol, start: int, key: Key): State {
    Created(normalize, start, key).(keys := map[key.id := key.(isActive := false)], revoked := map[key.hash := start],
                         validations := map[0 := Validation(key.hash, CheckExpiry(key, start))],
                         revocations := map[0 := Revocation(key.id, Over(true, true))])
  }

  predicate NewKey(normalize: Symbol -> Symbol, key: Key, asked: Symbol) {
    key.isActive && key.merchantId != 0 && key.scope == normalize(asked) != 0
  }

  lemma CanBeOvertaken(normalize: Symbol -> Symbol, start: int, key: Key, asked: Symbol) returns (actions: seq<Action>)
    requires NewKey(normalize, key, asked)
    ensures Reach(normalize, start, actions) == Overtaken(normalize, start, key)
  {
    var read, revoke := Call(0, Succeeds), RevokeCall(0, Succeeds);
    var a1 := [] + [CreateKey(key, asked)];
    RunSnoc(Step, Init(normalize, start), [], CreateKey(key, asked));
    assert Reach(normalize, start, a1) == Created(normalize, start, key);
    RunSnoc(Step, Init(normalize, start), a1, Validate(0, key.hash));
    var a2 := a1 + [Validate(0, key.hash)];
    RunSnoc(Step, Init(normalize, start), a2, read);
    RunSnoc(Step, Init(normalize, start), a2 + [read], read);
    RunSnoc(Step, Init(normalize, start), a2 + [read] + [read], read);
    var a3 := a2 + [read] + [read] + [read];
    assert Reach(normalize, start, a3) == Created(normalize, start, key).(validations := map[0 := Validation(key.hash, CheckExpiry(key, start))]);
    actions := Overtake(normalize, start, key, a3);
  }

  /** A validation has read the row of the key, and a revocation stands at pc. */
  function Racing(normalize: Symbol -> Symbol, start: int, key: Key, pc: RevocationPc): State {
    Created(normalize, start, key).(validations := map[0 := Validation(key.hash, CheckExpiry(key, start))],
                                    revocations := map[0 := Revocation(key.id, pc)])
  }

  lemma StartRace(normalize: Symbol -> Symbol, start: int, key: Key, before: seq<Action>) returns (actions: seq<Action>)
    requires Reach(normalize, start, before)
             == Created(normalize, start, key).(validations := map[0 := Validation(key.hash, CheckExpiry(key, start))])
    ensures Reach(normalize, start, actions) == Racing(normalize, start, key, Commit(key.hash))
  {
    RunSnoc(Step, Init(normalize, start), before, Revoke(0, key.id));
    RunSnoc(Step, Init(normalize, start), before + [Revoke(0, key.id)], RevokeCall(0, Succeeds));
    actions := before + [Revoke(0, key.id)] + [RevokeCall(0, Succeeds)];
  }

  lemma Overtake(normalize: Symbol -> Symbol, start: int, key: Key, before: seq<Action>) returns (actions: seq<Action>)
    requires Reach(normalize, start, before)
             == Created(normalize, start, key).(validations := map[0 := Validation(key.hash, CheckExpiry(key, start))])
    ensures Reach(normalize, start, actions) == Overtaken(normalize, start, key)
  {
    var revoke := RevokeCall(0, Succeeds);
    var a1 := StartRace(normalize, start, key, before);
    RunSnoc(Step, Init(normalize, start), a1, revoke);
    RunSnoc(Step, Init(normalize, start), a1 + [revoke], revoke);
    actions := a1 + [revoke] + [revoke];
    assert Reach(normalize, start, actions).keys == map[key.id := key.(isActive := false)];
  }

  /** The overtaken validation goes on and writes the cache after this delay. */
  lemma WritesLate(normalize: Symbol -> Symbol, start: int, key: Key, delay: nat, before: seq<Action>) returns (actions: seq<Action>)
    requires Reach(normalize, start, before) == Overtaken(normalize, start, key)
    requires key.expiresAt.At? ==> start + FALLBACK <= key.expiresAt.t
    ensures var s := Reach(normalize, start, actions);
            && s.slowest == delay && s.now == start + delay && s.revoked == map[key.hash := start]
            && s.cache == map[key.hash := Entry(key.merchantId, key.scope, start + delay + FALLBACK)]
            && s.validations.Keys == {0}
  {
    var proceed := Call(0, Succeeds);
    RunSnoc(Step, Init(normalize, start), before, proceed);
    RunSnoc(Step, Init(normalize, start), before + [proceed], proceed);
    var a1 := before + [proceed] + [proceed];
    assert Reach(normalize, start, a1).validations[0].pc == SetCache(key, start, FALLBACK);
    RunSnoc(Step, Init(normalize, start), a1, Tick(delay));
    RunSnoc(Step, Init(normalize, start), a1 + [Tick(delay)], proceed);
    actions := a1 + [Tick(delay)] + [proceed];
  }

  /** Whatever a validation's delay, a revoked key is accepted up to the last nanosecond of the bound,
      even though the revocation deleted the cache entry in time. */
  lemma StalenessIsReached(normalize: Symbol -> Symbol, start: int, key: Key, asked: Symbol, delay: nat)
    returns (actions: seq<Action>)
    requires NewKey(normalize, key, asked) && (key.expiresAt.At? ==> start + FALLBACK <= key.expiresAt.t)
    ensures var s := Reach(normalize, start, actions);
            && s.slowest == delay && key.hash in s.revoked
            && AcceptedFromCache(s, 1) && s.validations[1].hash == key.hash
            && s.now == s.revoked[key.hash] + delay + 30 * SECOND - 1
  {
    var before := CanBeOvertaken(normalize, start, key, asked);
    before := WritesLate(normalize, start, key, delay, before);
    RunSnoc(Step, Init(normalize, start), before, Tick(FALLBACK - 1));
    RunSnoc(Step, Init(normalize, start), before + [Tick(FALLBACK - 1)], Validate(1, key.hash));
    actions := before + [Tick(FALLBACK - 1)] + [Validate(1, key.hash)];
  }
}
