/** The validation cache for API keys as a timed transition system: validations read the cache, the
    revocation list and the key row and write the cache; revocations deactivate the row and delete
    the cache entry; Redis drops an entry at its deadline or at any time before. Any amount of time
    may pass between two calls, and every call may fail before or after it took effect. Times are in
    nanoseconds, on one clock. */
module KeyCacheProtocol {
  import opened GoText
  import opened Runs

  const MILLISECOND: int := 1_000_000
  const SECOND: int := 1_000_000_000

  datatype Expiry = Never | At(t: int) {
    predicate Passed(now: int) { At? && t <= now }
  }

  datatype Key = Key(id: Symbol, hash: Symbol, merchantId: Symbol, scope: Symbol, isActive: bool, expiresAt: Expiry)

  datatype Entry = Entry(merchantId: Symbol, scope: Symbol, deadline: int)

  datatype Outcome = Succeeds | FailsBefore | FailsAfter {
    predicate TakesEffect() { this != FailsBefore }
  }

  datatype Result = Accepted(merchantId: Symbol, scope: Symbol) | InvalidKey | RevokedKey | Errored

  /** A validation remembers when it read the key row. */
  datatype ValidationPc =
    | ReadCache
    | CheckRevoked
    | LoadKey
    | CheckExpiry(key: Key, loadedAt: int)
    | ComputeTtl(key: Key, loadedAt: int)
    | SetCache(key: Key, loadedAt: int, ttl: int)
    | Done(result: Result)

  datatype Validation = Validation(hash: Symbol, pc: ValidationPc)

  datatype RevocationPc = Find | Commit(hash: Symbol) | Delete(hash: Symbol) | Over(found: bool, ok: bool)

  datatype Revocation = Revocation(id: Symbol, pc: RevocationPc)

  /** `byHash` is the unique index of the key table, `revoked` the revocation list with the times its
      rows were committed. `slowest` is the longest time that a validation has let pass so far
      between reading the key row and writing the cache. `normalize` turns the scope a caller asks for
      into the one that is stored; 0, the empty string, stands for a rejected one. */
  datatype State = State(
    normalize: Symbol -> Symbol,
    now: int,
    keys: map<Symbol, Key>,
    byHash: map<Symbol, Symbol>,
    revoked: map<Symbol, int>,
    cache: map<Symbol, Entry>,
    slowest: int,
    validations: map<nat, Validation>,
    revocations: map<nat, Revocation>)

  function Init(normalize: Symbol -> Symbol, now: int): State {
    State(normalize, now, map[], map[], map[], map[], 0, map[], map[])
  }

  datatype Action =
    | Tick(elapsed: nat)
    | CreateKey(key: Key, asked: Symbol)
    | Evict(hash: Symbol)
    | Validate(v: nat, hash: Symbol)
    | Call(v: nat, outcome: Outcome)
    | Revoke(r: nat, id: Symbol)
    | RevokeCall(r: nat, outcome: Outcome)

  // ---------- times to live ----------

  const FALLBACK: int := 30 * SECOND

  /** keyValidationCacheTTL */
  function KeyValidationCacheTtl(expiresAt: Expiry, now: int): (ttl: int)
    ensures 0 < ttl <= FALLBACK
    ensures expiresAt.At? && now < expiresAt.t ==> ttl <= expiresAt.t - now
    ensures expiresAt.At? && expiresAt.t <= now ==> ttl == SECOND
    ensures (expiresAt.At? ==> now + FALLBACK <= expiresAt.t) ==> ttl == FALLBACK
  {
    match expiresAt
    case Never => FALLBACK
    case At(t) => if t - now <= 0 then SECOND else if t - now < FALLBACK then t - now else FALLBACK
  }

  /** Redis keeps times to live in milliseconds; shorter ones are rounded up to one. */
  function RedisTtl(ttl: int): int
    requires 0 < ttl
  {
    if ttl < MILLISECOND then MILLISECOND else ttl - ttl % MILLISECOND
  }

  // ---------- the cache ----------

  /** Redis answers with an entry only before its deadline, and the service takes it only if it names
      a merchant. The empty string is symbol 0. */
  predicate Hit(s: State, hash: Symbol) {
    hash in s.cache && s.now < s.cache[hash].deadline && s.cache[hash].merchantId != 0
  }

  function FullScope(): Symbol { Intern("full") }

  function FromCache(e: Entry): Result {
    Accepted(e.merchantId, if e.scope == 0 then FullScope() else e.scope)
  }

  // ---------- validations ----------

  function ValidationAt(s: State, v: nat, pc: ValidationPc): State
    requires v in s.validations
  {
    s.(validations := s.validations[v := s.validations[v].(pc := pc)])
  }

  function Cached(s: State, key: Key, loadedAt: int, ttl: int): State
    requires 0 < ttl
  {
    s.(cache := s.cache[key.hash := Entry(key.merchantId, key.scope, s.now + RedisTtl(ttl))],
       slowest := if s.slowest < s.now - loadedAt then s.now - loadedAt else s.slowest)
  }

  function ValidationStep(s: State, v: nat, o: Outcome): State
    requires v in s.validations
  {
    var hash := s.validations[v].hash;
    var pc :=
      match s.validations[v].pc
      case ReadCache => if o == Succeeds && Hit(s, hash) then Done(FromCache(s.cache[hash])) else CheckRevoked
      case CheckRevoked =>
        if o != Succeeds then Done(Errored) else if hash in s.revoked then Done(RevokedKey) else LoadKey
      case LoadKey =>
        if o != Succeeds then Done(Errored)
        else if hash !in s.byHash || s.byHash[hash] !in s.keys then Done(InvalidKey)
        else
          var key := s.keys[s.byHash[hash]];
          if key.isActive then CheckExpiry(key, s.now) else Done(InvalidKey)
      case CheckExpiry(key, loadedAt) =>
        if key.expiresAt.Passed(s.now) then Done(InvalidKey) else ComputeTtl(key, loadedAt)
      case ComputeTtl(key, loadedAt) => SetCache(key, loadedAt, KeyValidationCacheTtl(key.expiresAt, s.now))
      case SetCache(key, _, _) => Done(Accepted(key.merchantId, key.scope))
      case Done(result) => Done(result);
    var written :=
      if s.validations[v].pc.SetCache? && s.validations[v].pc.ttl > 0 && o.TakesEffect()
      then Cached(s, s.validations[v].pc.key, s.validations[v].pc.loadedAt, s.validations[v].pc.ttl)
      else s;
    ValidationAt(written, v, pc)
  }

  // ---------- revocations ----------

  /** The transaction of RevokeKey. A hash is revoked at most once. */
  function Deactivated(s: State, id: Symbol, hash: Symbol, o: Outcome): State {
    if o.TakesEffect() && hash !in s.revoked && id in s.keys
    then s.(keys := s.keys[id := s.keys[id].(isActive := false)], revoked := s.revoked[hash := s.now])
    else s
  }

  function RevocationStep(s: State, r: nat, o: Outcome): State
    requires r in s.revocations
  {
    var id := s.revocations[r].id;
    match s.revocations[r].pc
    case Find =>
      var pc := if o != Succeeds || id !in s.keys then Over(o != Succeeds, false) else Commit(s.keys[id].hash);
      s.(revocations := s.revocations[r := Revocation(id, pc)])
    case Commit(hash) =>
      var pc := if o == Succeeds && hash !in s.revoked then Delete(hash) else Over(true, false);
      Deactivated(s, id, hash, o).(revocations := s.revocations[r := Revocation(id, pc)])
    case Delete(hash) =>
      s.(cache := if o.TakesEffect() then s.cache - {hash} else s.cache,
         revocations := s.revocations[r := Revocation(id, Over(true, true))])
    case Over(_, _) => s
  }

  // ---------- one step ----------

  function Step(s: State, a: Action): State {
    match a
    case Tick(elapsed) => s.(now := s.now + elapsed)
    case CreateKey(key, asked) =>
      // A new key belongs to a merchant, is active and has the scope asked for in its normal form.
      if key.id in s.keys || key.hash in s.byHash || !key.isActive || key.merchantId == 0 || s.normalize(asked) == 0 then s
      else s.(keys := s.keys[key.id := key.(scope := s.normalize(asked))], byHash := s.byHash[key.hash := key.id])
    case Evict(hash) => s.(cache := s.cache - {hash})
    case Validate(v, hash) =>
      if v in s.validations then s else s.(validations := s.validations[v := Validation(hash, ReadCache)])
    case Call(v, o) => if v in s.validations then ValidationStep(s, v, o) else s
    case Revoke(r, id) =>
      if r in s.revocations then s else s.(revocations := s.revocations[r := Revocation(id, Find)])
    case RevokeCall(r, o) => if r in s.revocations then RevocationStep(s, r, o) else s
  }

  ghost function Reach(normalize: Symbol -> Symbol, start: int, actions: seq<Action>): State {
    Run(Step, Init(normalize, start), actions)
  }
}
