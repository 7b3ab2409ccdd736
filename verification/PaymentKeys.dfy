/** The keys a payment is cached and locked under, as text. The part for the idempotency key is a
    hash cut to 12 hexadecimal digits, so two keys of one merchant may share a cache key; two merchants
    never do, and no lock key is a cache key. */
module PaymentKeys {
  import opened GoText
  import opened PaymentDomain
  import opened PaymentProtocol
  import opened PaymentInvariant
  import PT = PaymentTheorems
  import opened Runs
  import RP = Replays

  /** A hash whose text form has no colon, such as hexadecimal digits. */
  ghost predicate IsHex(digest: string -> string) {
    forall s, i :: 0 <= i < |digest(s)| ==> digest(s)[i] != ':'
  }

  function ShortHash(digest: string -> string, value: string): string {
    var trimmed := TrimSpace(value);
    if trimmed == "" then ""
    else if |digest(trimmed)| < 12 then digest(trimmed)
    else digest(trimmed)[..12]
  }

  /** A blank key has the empty short hash; any other has twelve digits, the first ones of the digest of the
      key without its surrounding white space. */
  lemma ShortHashIsAPrefix(digest: string -> string, value: string)
    requires |digest(TrimSpace(value))| >= 12
    ensures ShortHash(digest, value) == "" <==> TrimSpace(value) == ""
    ensures TrimSpace(value) != "" ==> |ShortHash(digest, value)| == 12 && ShortHash(digest, value) <= digest(TrimSpace(value))
  {
  }

  /** So keys that differ in these digits have cache keys of their own, and keys that differ only in
      surrounding white space share one. */
  lemma CacheKeysDiffer(digest: string -> string, m: string, k: string, k': string)
    requires IsHex(digest) && |digest(TrimSpace(k))| >= 12 && |digest(TrimSpace(k'))| >= 12
    requires TrimSpace(k) != "" && TrimSpace(k') != ""
    ensures IdempotencyCacheKey(digest, m, k) == IdempotencyCacheKey(digest, m, k')
            <==> digest(TrimSpace(k))[..12] == digest(TrimSpace(k'))[..12]
  {
    ShortHashIsAPrefix(digest, k);
    ShortHashIsAPrefix(digest, k');
    SameCacheKeyIff(digest, m, k, m, k');
  }

  function IdempotencyCacheKey(digest: string -> string, merchantId: string, key: string): string {
    "idem:" + (merchantId + ":" + ShortHash(digest, key))
  }

  function LockKey(cacheKey: string): string {
    "lock:" + cacheKey
  }

  /** Only the last colon separates. */
  lemma LastColonSeparates(a: string, x: string, b: string, y: string)
    requires (forall i :: 0 <= i < |x| ==> x[i] != ':') && (forall i :: 0 <= i < |y| ==> y[i] != ':')
    requires a + ":" + x == b + ":" + y
    ensures a == b && x == y
  {
    var s := a + ":" + x;
    assert s[|a|] == ':' && s[|b|] == ':';
    assert |a| == |b|;
    assert a == s[..|a|] && b == s[..|a|] && x == s[|a| + 1..] && y == s[|a| + 1..];
  }

  lemma PrefixCancels(prefix: string, a: string, b: string)
    requires prefix + a == prefix + b
    ensures a == b
  {
    assert a == (prefix + a)[|prefix|..] && b == (prefix + b)[|prefix|..];
  }

  /** Two requests share a cache key exactly when they are of one merchant and the short hashes of
      their idempotency keys agree. */
  lemma SameCacheKeyIff(digest: string -> string, m: string, k: string, m': string, k': string)
    requires IsHex(digest)
    ensures IdempotencyCacheKey(digest, m, k) == IdempotencyCacheKey(digest, m', k')
            <==> m == m' && ShortHash(digest, k) == ShortHash(digest, k')
  {
    if IdempotencyCacheKey(digest, m, k) == IdempotencyCacheKey(digest, m', k') {
      PrefixCancels("idem:", m + ":" + ShortHash(digest, k), m' + ":" + ShortHash(digest, k'));
      LastColonSeparates(m, ShortHash(digest, k), m', ShortHash(digest, k'));
    }
  }

  lemma LockKeyIsNoCacheKey(digest: string -> string, cacheKey: string, m: string, k: string)
    ensures LockKey(cacheKey) != IdempotencyCacheKey(digest, m, k)
  {
    assert LockKey(cacheKey)[0] != IdempotencyCacheKey(digest, m, k)[0];
  }

  // ---------- whose payment a request is told about ----------

  function CacheKeySymbol(digest: string -> string): (Symbol, Symbol) -> Symbol {
    (m, k) => Intern(IdempotencyCacheKey(digest, Chars(m), Chars(k)))
  }

  function LockKeySymbol(): Symbol -> Symbol {
    key => Intern(LockKey(Chars(key)))
  }

  lemma KeysAreApart(digest: string -> string)
    ensures RP.Apart(CacheKeySymbol(digest), LockKeySymbol())
  {
    forall m, i, k ensures LockKeySymbol()(k) != CacheKeySymbol(digest)(m, i) {
      LockKeyIsNoCacheKey(digest, Chars(k), Chars(m), Chars(i));
      CharsOfIntern(LockKey(Chars(k)));
      CharsOfIntern(IdempotencyCacheKey(digest, Chars(m), Chars(i)));
    }
  }

  /** With the keys as they are built, no lookup ever meets a lock value: a request whose key is on record
      when it looks, and whose own calls do not fail, is answered with the payment after three calls. */
  lemma RetryIsAnswered(digest: string -> string, before: seq<Action>, after: seq<Action>, t: nat)
    requires var s := Reach(CacheKeySymbol(digest), LockKeySymbol(), before);
             && t in s.threads && s.threads[t].pc.ReadCache? && RP.Known(s, KeyIn(s.db, s.threads[t].payment))
    requires forall i :: 0 <= i < |after| ==>
               after[i] != Crash(t) && (after[i].Call? && after[i].t == t ==> after[i].answer.outcome == Succeeds)
    requires RP.OwnCalls(after, t) >= 3
    ensures var s, s' := Reach(CacheKeySymbol(digest), LockKeySymbol(), before),
                         Reach(CacheKeySymbol(digest), LockKeySymbol(), before + after);
            var k := KeyIn(s.db, s.threads[t].payment);
            && t in s'.threads && s'.threads[t].pc.Finished? && s'.threads[t].pc.response.Returned?
            && k in s'.db.records && s'.threads[t].pc.response.payment.id == s'.db.records[k].id
  {
    var cacheKey, lockKey := CacheKeySymbol(digest), LockKeySymbol();
    var s := Reach(cacheKey, lockKey, before);
    var p := s.threads[t].payment;
    KeysOfRun(cacheKey, lockKey, before);
    KeysAreApart(digest);
    forall i | 0 <= i < |after| ensures RP.Clean(Run(Step, s, after[..i]), after[i], t, KeyIn(s.db, p)) {
      RunConcat(Step, Init(cacheKey, lockKey), before, after[..i]);
      RP.NoLockUnderCacheKey(cacheKey, lockKey, before + after[..i], p.merchantId, p.idempotencyKey);
    }
    RP.KnownIsReturned(cacheKey, lockKey, before, after, t);
  }

  /** With the keys as they are built, a request is only ever told about a payment of its own merchant,
      whose idempotency key has the same short hash as its own. */
  lemma OwnMerchantOnly(digest: string -> string, actions: seq<Action>, t: nat, e: Payment)
    requires IsHex(digest)
    requires var s := Reach(CacheKeySymbol(digest), LockKeySymbol(), actions);
             t in s.threads && s.threads[t].pc == Finished(Returned(e))
    ensures var p := Reach(CacheKeySymbol(digest), LockKeySymbol(), actions).threads[t].payment;
            && Chars(e.merchantId) == Chars(p.merchantId)
            && ShortHash(digest, Chars(e.idempotencyKey)) == ShortHash(digest, Chars(p.idempotencyKey))
  {
    var s := Reach(CacheKeySymbol(digest), LockKeySymbol(), actions);
    PT.ReachableIsGood(CacheKeySymbol(digest), LockKeySymbol(), actions);
    KeysOfRun(CacheKeySymbol(digest), LockKeySymbol(), actions);
    var p := s.threads[t].payment;
    assert ThreadOk(s.db, s.threads[t]) && EntryOk(s.db, KeyIn(s.db, p), e);
    var mine := IdempotencyCacheKey(digest, Chars(p.merchantId), Chars(p.idempotencyKey));
    var its := IdempotencyCacheKey(digest, Chars(e.merchantId), Chars(e.idempotencyKey));
    InternIsInjective(mine, its);
    SameCacheKeyIff(digest, Chars(p.merchantId), Chars(p.idempotencyKey), Chars(e.merchantId), Chars(e.idempotencyKey));
  }

  lemma KeysOfRun(cacheKey: (Symbol, Symbol) -> Symbol, lockKey: Symbol -> Symbol, actions: seq<Action>)
    ensures Reach(cacheKey, lockKey, actions).db.cacheKey == cacheKey
  {
    PT.Later(cacheKey, lockKey, [], actions);
    assert [] + actions == actions;
  }
}
