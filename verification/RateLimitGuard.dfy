/** The rate limit guard as it is written: a map of bucket objects whose counts are updated in place,
    and a prune loop that deletes entries. A bucket that was just created may be deleted by the very
    prune it causes; the request is then counted in an object that no longer is in the map. */
module RateLimitGuard {
  import opened GoText
  import opened RateLimit
  import opened Sums

  class BucketCell {
    var count: int
    var resetAt: int

    constructor (resetAt: int)
      ensures count == 0 && this.resetAt == resetAt
    {
      count, this.resetAt := 0, resetAt;
    }
  }

  /** Math.ceil(ms / 1000) */
  function CeilSeconds(ms: int): (s: int)
    ensures 1000 * (s - 1) < ms <= 1000 * s
  {
    -((-ms) / 1000)
  }

  datatype Answer = Answer(allowed: bool, limit: int, remaining: int, resetSeconds: int)

  class RateLimitGuard {
    const config: Config
    var buckets: map<Symbol, BucketCell>

    constructor (config: Config)
      ensures Valid() && this.config == config && buckets == map[]
    {
      this.config, buckets := config, map[];
    }

    /** No two keys share a bucket. */
    ghost predicate Valid()
      reads this
    {
      forall j, k :: j in buckets && k in buckets && buckets[j] == buckets[k] ==> j == k
    }

    ghost function Contents(): map<Symbol, Bucket>
      reads this, buckets.Values
    {
      map k | k in buckets :: Bucket(buckets[k].count, buckets[k].resetAt)
    }

    /** prune: once there are many buckets, those whose window is over are deleted. */
    method Prune(now: int)
      requires Valid()
      modifies this
      ensures Valid() && Contents() == Pruned(old(Contents()), now)
      ensures forall k :: k in buckets ==> k in old(buckets) && buckets[k] == old(buckets)[k]
      ensures forall k :: k in old(buckets) ==>
                (k in buckets <==> |old(buckets)| < 10_000 || old(buckets[k].resetAt) > now)
    {
      ghost var was := Contents();
      assert was.Keys == buckets.Keys;
      assert |was| == |was.Keys| == |buckets.Keys|;
      if |buckets| < PRUNE_FROM {
        return;
      }
      var todo := buckets.Keys;
      while todo != {}
        invariant todo <= buckets.Keys <= old(buckets.Keys)
        invariant forall k :: k in buckets ==> buckets[k] == old(buckets)[k]
        invariant forall k :: k in old(buckets) && (k in todo || old(buckets)[k].resetAt > now) ==> k in buckets
        invariant forall k :: k in buckets && k !in todo ==> buckets[k].resetAt > now
      {
        ghost var one := AnElement(todo);
        var key :| key in todo;
        if buckets[key].resetAt <= now {
          buckets := buckets - {key};
        }
        todo := todo - {key};
      }
      assert forall k :: k in buckets ==> k in was;
      assert forall k :: k in buckets ==> was[k] == Bucket(buckets[k].count, buckets[k].resetAt);
      assert forall k :: k in buckets ==> was[k].resetAt > now;
      assert forall k :: k in was && was[k].resetAt > now ==> k in buckets;
      assert Contents() == map k | k in was && was[k].resetAt > now :: was[k];
    }

    /** currentBucket: the bucket in hand need not be in the map any more. */
    method CurrentBucket(key: Symbol, now: int) returns (bucket: BucketCell)
      requires Valid()
      modifies this
      ensures Valid() && Bucket(bucket.count, bucket.resetAt) == Current(config, old(Contents()), Request(key, now))
      ensures Contents() == if key in old(buckets) && old(buckets[key].resetAt) > now then old(Contents())
                            else Pruned(old(Contents())[key := Bucket(bucket.count, bucket.resetAt)], now)
      ensures key in buckets ==> buckets[key] == bucket
      ensures forall k :: k in buckets && k != key ==> buckets[k] != bucket && k in old(buckets) && buckets[k] == old(buckets)[k]
      ensures fresh(bucket) || (key in old(buckets) && bucket == old(buckets)[key])
    {
      if key in buckets && buckets[key].resetAt > now {
        return buckets[key];
      }
      ghost var was := Contents();
      bucket := new BucketCell(now + config.windowMs);
      buckets := buckets[key := bucket];
      assert Contents() == was[key := Bucket(0, now + config.windowMs)];
      Prune(now);
    }

    /** Counting in the bucket in hand shows in the map exactly if the bucket is still there. */
    lemma CountedInPlace(stored: map<Symbol, Bucket>, key: Symbol, bucket: BucketCell)
      requires stored.Keys == buckets.Keys
      requires key in buckets ==> buckets[key] == bucket
      requires forall k :: k in buckets && k != key ==> stored[k] == Bucket(buckets[k].count, buckets[k].resetAt)
      ensures Contents() == if key in stored then stored[key := Bucket(bucket.count, bucket.resetAt)] else stored
    {
    }

    /** canActivate. `exempt` stands for the health and internal metrics paths. */
    method CanActivate(exempt: bool, key: Symbol, now: int) returns (answer: Answer)
      requires Valid()
      modifies this, buckets.Values
      ensures Valid()
      ensures exempt ==> answer.allowed && Contents() == old(Contents())
      ensures !exempt ==>
                var q := Request(key, now);
                var bucket := Current(config, old(Contents()), q);
                && Contents() == GuardStep(config, old(Contents()), q)
                && answer == Answer(Admits(config, bucket), config.maxRequests, Remaining(config, bucket), CeilSeconds(bucket.resetAt))
      ensures forall k :: k in buckets ==> fresh(buckets[k]) || (k in old(buckets) && buckets[k] == old(buckets)[k])
    {
      if exempt {
        return Answer(true, config.maxRequests, 0, 0);
      }
      var bucket := CurrentBucket(key, now);
      var left := config.maxRequests - bucket.count - 1;
      answer := Answer(true, config.maxRequests, if left > 0 then left else 0, CeilSeconds(bucket.resetAt));
      if bucket.count >= config.maxRequests {
        answer := answer.(allowed := false);
        CountedInPlace(Contents(), key, bucket);
      } else {
        ghost var stored := Contents();
        bucket.count := bucket.count + 1;
        CountedInPlace(stored, key, bucket);
      }
    }
  }
}
