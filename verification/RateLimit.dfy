/** The gateway's rate limiter on values: one step of the guard with its opportunistic pruning, and
    the specification that never prunes. Times are in milliseconds. */
module RateLimit {
  import opened GoText

  datatype Config = Config(windowMs: int, maxRequests: int)

  datatype Bucket = Bucket(count: int, resetAt: int)

  datatype Request = Request(key: Symbol, now: int)

  const PRUNE_FROM: nat := 10_000

  /** The bucket a request is counted in: the key's own while its window runs, otherwise a new one. */
  function Current(c: Config, buckets: map<Symbol, Bucket>, q: Request): Bucket {
    if q.key in buckets && buckets[q.key].resetAt > q.now then buckets[q.key] else Bucket(0, q.now + c.windowMs)
  }

  predicate Admits(c: Config, bucket: Bucket) {
    bucket.count < c.maxRequests
  }

  function Counted(c: Config, bucket: Bucket): Bucket {
    if Admits(c, bucket) then bucket.(count := bucket.count + 1) else bucket
  }

  function Pruned(buckets: map<Symbol, Bucket>, now: int): map<Symbol, Bucket> {
    if |buckets| < PRUNE_FROM then buckets
    else map k | k in buckets && buckets[k].resetAt > now :: buckets[k]
  }

  // ---------- the guard and its specification ----------

  /** The specification: every key has one bucket, and none is ever dropped. */
  function SpecStep(c: Config, buckets: map<Symbol, Bucket>, q: Request): map<Symbol, Bucket> {
    buckets[q.key := Counted(c, Current(c, buckets, q))]
  }

  /** The guard: a new bucket is stored, then expired ones may be dropped, the new one among them,
      and then the request is counted in the bucket in hand. */
  function GuardStep(c: Config, buckets: map<Symbol, Bucket>, q: Request): map<Symbol, Bucket> {
    var bucket := Current(c, buckets, q);
    var stored :=
      if q.key in buckets && buckets[q.key].resetAt > q.now then buckets
      else Pruned(buckets[q.key := bucket], q.now);
    if q.key in stored then stored[q.key := Counted(c, bucket)] else stored
  }

  function SpecRun(c: Config, requests: seq<Request>): map<Symbol, Bucket> {
    if requests == [] then map[]
    else SpecStep(c, SpecRun(c, requests[..|requests| - 1]), requests[|requests| - 1])
  }

  function GuardRun(c: Config, requests: seq<Request>): map<Symbol, Bucket> {
    if requests == [] then map[]
    else GuardStep(c, GuardRun(c, requests[..|requests| - 1]), requests[|requests| - 1])
  }

  /** What the guard answers to the i-th request. */
  function GuardAdmits(c: Config, requests: seq<Request>, i: nat): bool
    requires i < |requests|
  {
    Admits(c, Current(c, GuardRun(c, requests[..i]), requests[i]))
  }

  function SpecAdmits(c: Config, requests: seq<Request>, i: nat): bool
    requires i < |requests|
  {
    Admits(c, Current(c, SpecRun(c, requests[..i]), requests[i]))
  }

  /** The clock does not run backwards. */
  predicate Ordered(requests: seq<Request>) {
    forall i, j :: 0 <= i < j < |requests| ==> requests[i].now <= requests[j].now
  }

  // ---------- pruning is invisible ----------

  /** The guard's buckets are those of the specification, but for some whose window is over. */
  predicate Agrees(guard: map<Symbol, Bucket>, spec: map<Symbol, Bucket>, now: int) {
    && (forall k :: k in guard ==> k in spec && guard[k] == spec[k])
    && (forall k :: k in spec && k !in guard ==> spec[k].resetAt <= now)
  }

  lemma StepAgrees(c: Config, guard: map<Symbol, Bucket>, spec: map<Symbol, Bucket>, last: int, q: Request)
    requires Agrees(guard, spec, last) && last <= q.now
    ensures Current(c, guard, q) == Current(c, spec, q)
    ensures Agrees(GuardStep(c, guard, q), SpecStep(c, spec, q), q.now)
  {
  }

  lemma {:induction false} RunsAgree(c: Config, requests: seq<Request>, now: int)
    requires Ordered(requests) && (requests != [] ==> requests[|requests| - 1].now <= now)
    ensures Agrees(GuardRun(c, requests), SpecRun(c, requests), now)
  {
    if requests != [] {
      var n := |requests| - 1;
      var q := requests[n];
      RunsAgree(c, requests[..n], q.now);
      StepAgrees(c, GuardRun(c, requests[..n]), SpecRun(c, requests[..n]), q.now, q);
    }
  }

  /** While the clock does not run backwards the guard gives every request the answer of the
      specification that never prunes. */
  lemma PruningIsInvisible(c: Config, requests: seq<Request>, i: nat)
    requires Ordered(requests) && i < |requests|
    ensures GuardAdmits(c, requests, i) == SpecAdmits(c, requests, i)
  {
    var before, q := requests[..i], requests[i];
    RunsAgree(c, before, q.now);
    StepAgrees(c, GuardRun(c, before), SpecRun(c, before), q.now, q);
  }

  // ---------- how many requests a window admits ----------

  /** How many of the requests of this key with a time from `from` up to one window later are admitted. */
  function AdmittedIn(c: Config, requests: seq<Request>, key: Symbol, from: int): nat {
    if requests == [] then 0
    else
      var n := |requests| - 1;
      var q := requests[n];
      AdmittedIn(c, requests[..n], key, from)
      + (if q.key == key && from <= q.now < from + c.windowMs && GuardAdmits(c, requests, n) then 1 else 0)
  }

  /** The most that any window can admit. */
  function Most(c: Config): nat {
    if c.windowMs <= 0 || c.maxRequests <= 0 then 0
    else if c.windowMs == 1 then c.maxRequests
    else 2 * c.maxRequests - 1
  }

  /** How much of the bound may be used up when the last request came at time `last` and the key's
      bucket is the one in spec. A bucket that ends inside the window was opened before it, so its
      first request does not count. */
  predicate WithinBudget(c: Config, spec: map<Symbol, Bucket>, key: Symbol, from: int, last: int, admitted: nat) {
    && (last < from ==> admitted == 0)
    && if key !in spec || spec[key].resetAt <= from then admitted == 0
       else
         var b := spec[key];
         && 1 <= b.count <= c.maxRequests && b.resetAt <= last + c.windowMs
         && if b.resetAt < from + c.windowMs then admitted <= b.count - 1
            else if b.resetAt < from + 2 * c.windowMs then admitted <= Most(c) - c.maxRequests + b.count
            else admitted <= Most(c)
  }

  lemma StepStaysWithinBudget(
    c: Config, spec: map<Symbol, Bucket>, q: Request, key: Symbol, from: int, last: int, admitted: nat)
    requires c.windowMs >= 1 && c.maxRequests >= 1 && last <= q.now
    requires WithinBudget(c, spec, key, from, last, admitted)
    ensures var more := if q.key == key && from <= q.now < from + c.windowMs && Admits(c, Current(c, spec, q)) then 1 else 0;
            WithinBudget(c, SpecStep(c, spec, q), key, from, q.now, admitted + more)
  {
  }

  lemma {:induction false} RunStaysWithinBudget(c: Config, requests: seq<Request>, key: Symbol, from: int, last: int)
    requires c.windowMs >= 1 && c.maxRequests >= 1 && Ordered(requests)
    requires requests != [] ==> last == requests[|requests| - 1].now
    requires requests == [] ==> last < from
    ensures WithinBudget(c, SpecRun(c, requests), key, from, last, AdmittedIn(c, requests, key, from))
  {
    if requests != [] {
      var n := |requests| - 1;
      var before, q := requests[..n], requests[n];
      var earlier := if n == 0 then (if from <= q.now then from - 1 else q.now) else before[n - 1].now;
      RunStaysWithinBudget(c, before, key, from, earlier);
      PruningIsInvisible(c, requests, n);
      StepStaysWithinBudget(c, SpecRun(c, before), q, key, from, earlier, AdmittedIn(c, before, key, from));
    }
  }

  lemma {:induction false} NothingAdmitted(c: Config, requests: seq<Request>, key: Symbol, from: int)
    requires c.windowMs <= 0 || c.maxRequests <= 0
    ensures AdmittedIn(c, requests, key, from) == 0
    ensures c.maxRequests <= 0 ==> forall k :: k in GuardRun(c, requests) ==> GuardRun(c, requests)[k].count == 0
  {
    if requests != [] {
      NothingAdmitted(c, requests[..|requests| - 1], key, from);
    }
  }

  /** Fewer than twice the limit: no half-open interval of one window's length, wherever it starts,
      admits more than 2 * maxRequests - 1 requests of a key. */
  lemma WindowIsBounded(c: Config, requests: seq<Request>, key: Symbol, from: int)
    requires Ordered(requests)
    ensures AdmittedIn(c, requests, key, from) <= Most(c)
  {
    if c.windowMs <= 0 || c.maxRequests <= 0 {
      NothingAdmitted(c, requests, key, from);
    } else {
      var last := if requests == [] then from - 1 else requests[|requests| - 1].now;
      RunStaysWithinBudget(c, requests, key, from, last);
    }
  }

  // ---------- the bound is reached ----------

  function Burst(key: Symbol, now: int, n: nat): (r: seq<Request>)
    ensures |r| == n && forall i :: 0 <= i < n ==> r[i] == Request(key, now)
  {
    seq(n, i => Request(key, now))
  }

  function InWindow(c: Config, now: int, from: int, n: nat): nat {
    if from <= now < from + c.windowMs then n else 0
  }

  lemma OneMore(c: Config, requests: seq<Request>, q: Request, from: int)
    ensures GuardRun(c, requests + [q]) == GuardStep(c, GuardRun(c, requests), q)
    ensures AdmittedIn(c, requests + [q], q.key, from)
            == AdmittedIn(c, requests, q.key, from)
               + (if Admits(c, Current(c, GuardRun(c, requests), q)) then InWindow(c, q.now, from, 1) else 0)
  {
    assert (requests + [q])[..|requests|] == requests;
  }

  /** A request that opens a bucket. */
  lemma Opens(c: Config, requests: seq<Request>, q: Request, from: int)
    requires c.windowMs >= 1 && c.maxRequests >= 1
    requires q.key in GuardRun(c, requests) ==> GuardRun(c, requests)[q.key].resetAt <= q.now
    ensures q.key in GuardRun(c, requests + [q])
    ensures GuardRun(c, requests + [q])[q.key] == Bucket(1, q.now + c.windowMs)
    ensures AdmittedIn(c, requests + [q], q.key, from) == AdmittedIn(c, requests, q.key, from) + InWindow(c, q.now, from, 1)
  {
    OneMore(c, requests, q, from);
  }

  /** n requests at once, in a bucket that is running and has room for them. */
  lemma {:induction false} BurstIsCounted(c: Config, before: seq<Request>, key: Symbol, now: int, n: nat, from: int)
    requires key in GuardRun(c, before)
    requires var b := GuardRun(c, before)[key]; now < b.resetAt && b.count + n <= c.maxRequests
    ensures var b, all := GuardRun(c, before)[key], before + Burst(key, now, n);
            && key in GuardRun(c, all) && GuardRun(c, all)[key] == b.(count := b.count + n)
            && AdmittedIn(c, all, key, from) == AdmittedIn(c, before, key, from) + InWindow(c, now, from, n)
  {
    if n == 0 {
      assert before + Burst(key, now, n) == before;
    } else {
      BurstIsCounted(c, before, key, now, n - 1, from);
      OneMore(c, before + Burst(key, now, n - 1), Request(key, now), from);
      assert before + Burst(key, now, n) == before + Burst(key, now, n - 1) + [Request(key, now)];
    }
  }

  lemma StaysOrdered(requests: seq<Request>, more: seq<Request>)
    requires Ordered(requests) && Ordered(more)
    requires requests != [] && more != [] ==> requests[|requests| - 1].now <= more[0].now
    ensures Ordered(requests + more)
  {
    var all := requests + more;
    forall i, j | 0 <= i < j < |all| ensures all[i].now <= all[j].now {
      if i < |requests| <= j {
        assert all[i].now <= requests[|requests| - 1].now && more[0].now <= all[j].now;
      }
    }
  }

  /** The requests that open a bucket at `now` and fill it at `later`. */
  function Filling(c: Config, key: Symbol, now: int, later: int): seq<Request> {
    [Request(key, now)] + Burst(key, later, if c.maxRequests >= 1 then c.maxRequests - 1 else 0)
  }

  lemma FillingInTwo(c: Config, before: seq<Request>, key: Symbol, now: int, later: int)
    requires c.maxRequests >= 1
    ensures before + Filling(c, key, now, later) == before + [Request(key, now)] + Burst(key, later, c.maxRequests - 1)
  {
  }

  lemma FillingCounts(c: Config, before: seq<Request>, key: Symbol, now: int, later: int, from: int)
    requires c.windowMs >= 1 && c.maxRequests >= 1 && now <= later < now + c.windowMs
    requires key in GuardRun(c, before) ==> GuardRun(c, before)[key].resetAt <= now
    ensures var all := before + Filling(c, key, now, later);
            && key in GuardRun(c, all) && GuardRun(c, all)[key].resetAt == now + c.windowMs
            && AdmittedIn(c, all, key, from)
               == AdmittedIn(c, before, key, from) + InWindow(c, now, from, 1) + InWindow(c, later, from, c.maxRequests - 1)
  {
    FillingInTwo(c, before, key, now, later);
    Opens(c, before, Request(key, now), from);
    BurstIsCounted(c, before + [Request(key, now)], key, later, c.maxRequests - 1, from);
  }

  /** Nothing came before. */
  lemma FirstFillingCounts(c: Config, key: Symbol, now: int, later: int, from: int)
    requires c.windowMs >= 1 && c.maxRequests >= 1 && now <= later < now + c.windowMs
    ensures var all := Filling(c, key, now, later);
            && key in GuardRun(c, all) && GuardRun(c, all)[key].resetAt == now + c.windowMs
            && AdmittedIn(c, all, key, from) == InWindow(c, now, from, 1) + InWindow(c, later, from, c.maxRequests - 1)
  {
    FillingCounts(c, [], key, now, later, from);
    assert [] + Filling(c, key, now, later) == Filling(c, key, now, later);
  }

  lemma FillingIsOrdered(c: Config, key: Symbol, now: int, later: int)
    requires now <= later
    ensures var r := Filling(c, key, now, later);
            Ordered(r) && r != [] && r[0].now == now && r[|r| - 1].now in {now, later}
  {
  }

  /** For every configuration and every window some run admits that many requests in it. */
  lemma WindowBoundIsReached(c: Config, key: Symbol, from: int) returns (requests: seq<Request>)
    ensures Ordered(requests) && AdmittedIn(c, requests, key, from) == Most(c)
  {
    if c.windowMs <= 0 || c.maxRequests <= 0 {
      requests := [];
    } else if c.windowMs == 1 {
      FirstFillingCounts(c, key, from, from, from);
      FillingIsOrdered(c, key, from, from);
      requests := Filling(c, key, from, from);
    } else {
      requests := TwoFillings(c, key, from);
    }
  }

  /** A bucket opened just before the window and filled in it, and the next one opened in it. */
  lemma TwoFillings(c: Config, key: Symbol, from: int) returns (requests: seq<Request>)
    requires c.windowMs >= 2 && c.maxRequests >= 1
    ensures Ordered(requests) && AdmittedIn(c, requests, key, from) == Most(c)
  {
    var next := from - 1 + c.windowMs;
    var first, second := Filling(c, key, from - 1, from), Filling(c, key, next, next);
    FirstFillingCounts(c, key, from - 1, from, from);
    FillingCounts(c, first, key, next, next, from);
    FillingIsOrdered(c, key, from - 1, from);
    FillingIsOrdered(c, key, next, next);
    StaysOrdered(first, second);
    requests := first + second;
  }

  // ---------- the header ----------

  /** The x-ratelimit-remaining header of a request. */
  function Remaining(c: Config, bucket: Bucket): int {
    if c.maxRequests - bucket.count - 1 > 0 then c.maxRequests - bucket.count - 1 else 0
  }

  /** The header tells the truth: after an admitted request, as many more at once are admitted as it
      says, and then no more. */
  lemma RemainingIsTruthful(c: Config, requests: seq<Request>, q: Request)
    requires c.windowMs >= 1 && Admits(c, Current(c, GuardRun(c, requests), q))
    ensures var n := Remaining(c, Current(c, GuardRun(c, requests), q));
            var all := requests + [q] + Burst(q.key, q.now, n);
            && n >= 0
            && AdmittedIn(c, all, q.key, q.now) == AdmittedIn(c, requests + [q], q.key, q.now) + n
            && !Admits(c, Current(c, GuardRun(c, all), q))
  {
    var n := Remaining(c, Current(c, GuardRun(c, requests), q));
    OneMore(c, requests, q, q.now);
    BurstIsCounted(c, requests + [q], q.key, q.now, n, q.now);
  }

  /** The x-ratelimit-reset header tells the truth, too: a key that is refused is refused until the end of
      its bucket's window, and admitted from then on. */
  lemma ResetIsTruthful(c: Config, requests: seq<Request>, q: Request, later: int)
    requires c.windowMs >= 1 && c.maxRequests >= 1 && q.now <= later
    requires !Admits(c, Current(c, GuardRun(c, requests), q))
    ensures Admits(c, Current(c, GuardRun(c, requests + [q]), Request(q.key, later)))
            <==> later >= Current(c, GuardRun(c, requests), q).resetAt
  {
    assert (requests + [q])[..|requests|] == requests;
  }

  /** A new bucket runs for the length of a window from its first request on. */
  lemma WindowStartsWithRequest(c: Config, requests: seq<Request>, q: Request)
    requires q.key in GuardRun(c, requests) ==> GuardRun(c, requests)[q.key].resetAt <= q.now
    ensures Current(c, GuardRun(c, requests), q) == Bucket(0, q.now + c.windowMs)
  {
  }
}
