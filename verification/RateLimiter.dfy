// The local fixed-window rate limiter with pruning of expired buckets.
module RateLimiter {
  import opened Wrappers

  const WINDOW := 60000
  const MAX_BUCKETS := 5000

  datatype Kind = Auth | Api

  datatype Key = Key(address: Name, kind: Kind)

  datatype Bucket = Bucket(startedAt: int, count: nat)

  datatype Limits = Limits(auth: nat, api: nat)

  function LimitOf(l: Limits, k: Key): nat {
    match k.kind
    case Auth => l.auth
    case Api => l.api
  }

  predicate Expired(b: Bucket, now: int) {
    b.startedAt + WINDOW <= now
  }

  function Hit(b: Option<Bucket>, now: int): Bucket {
    if b.None? || Expired(b.value, now) then Bucket(now, 1) else b.value.(count := b.value.count + 1)
  }

  function BucketOf(m: map<Key, Bucket>, k: Key): Option<Bucket> {
    if k in m then Some(m[k]) else None
  }

  predicate Accepts(b: Bucket, limit: nat) {
    b.count <= limit
  }

  // ---------- one key, without pruning ----------

  /** The requests of one key so far: when, and whether accepted. */
  datatype Request = Request(at: int, accepted: bool)

  function BucketAfter(times: seq<int>): Option<Bucket> {
    if times == [] then None else Some(Hit(BucketAfter(times[..|times| - 1]), times[|times| - 1]))
  }

  function Answers(times: seq<int>, limit: nat): seq<bool> {
    if times == [] then []
    else Answers(times[..|times| - 1], limit) + [Accepts(BucketAfter(times).value, limit)]
  }

  ghost predicate Ordered(times: seq<int>) {
    forall i, j :: 0 <= i < j < |times| ==> times[i] <= times[j]
  }

  function CountFrom(times: seq<int>, start: int): nat {
    if times == [] then 0 else CountFrom(times[..|times| - 1], start) + if times[|times| - 1] >= start then 1 else 0
  }

  lemma {:induction false} NoneFrom(times: seq<int>, start: int)
    requires forall i :: 0 <= i < |times| ==> times[i] < start
    ensures CountFrom(times, start) == 0
  {
    if times != [] {
      NoneFrom(times[..|times| - 1], start);
    }
  }

  /** A bucket counts exactly the requests since it was started. */
  lemma {:induction false} BucketCountsItsWindow(times: seq<int>)
    requires Ordered(times) && times != []
    ensures var b := BucketAfter(times).value;
            b.startedAt in times && b.startedAt <= times[|times| - 1] < b.startedAt + WINDOW && b.count == CountFrom(times, b.startedAt)
  {
    var n := |times| - 1;
    var earlier, now := times[..n], times[n];
    if earlier != [] {
      BucketCountsItsWindow(earlier);
      var b := BucketAfter(earlier).value;
      if Expired(b, now) {
        forall i | 0 <= i < n
          ensures earlier[i] < now
        {
          assert earlier[i] <= earlier[n - 1];
        }
        NoneFrom(earlier, now);
      }
    } else {
      assert CountFrom(earlier, now) == 0;
    }
  }

  /** Exactly the first `limit` requests of each window are accepted. */
  lemma FirstOfWindowAccepted(times: seq<int>, limit: nat)
    requires Ordered(times) && times != []
    ensures |Answers(times, limit)| == |times|
    ensures Answers(times, limit)[|times| - 1] <==> CountFrom(times, BucketAfter(times).value.startedAt) <= limit
  {
    AnswersLength(times, limit);
    BucketCountsItsWindow(times);
  }

  lemma {:induction false} AnswersLength(times: seq<int>, limit: nat)
    ensures |Answers(times, limit)| == |times|
  {
    if times != [] {
      AnswersLength(times[..|times| - 1], limit);
    }
  }

  /** How many requests in the half-open span from `a` were accepted. */
  function AcceptedIn(times: seq<int>, limit: nat, a: int): nat {
    if times == [] then 0
    else
      AcceptedIn(times[..|times| - 1], limit, a)
      + if a <= times[|times| - 1] < a + WINDOW && Accepts(BucketAfter(times).value, limit) then 1 else 0
  }

  function Least(x: nat, y: nat): nat {
    if x <= y then x else y
  }

  /** What can have been accepted in the span, by where the current bucket began. */
  function Allowance(b: Bucket, limit: nat, a: int): nat {
    if b.startedAt < a then Least(b.count, limit)
    else if b.startedAt < a + WINDOW then limit + Least(b.count, limit)
    else 2 * limit
  }

  lemma {:induction false} AcceptedWithinAllowance(times: seq<int>, limit: nat, a: int)
    requires Ordered(times) && times != []
    ensures AcceptedIn(times, limit, a) <= Allowance(BucketAfter(times).value, limit, a)
    ensures times[|times| - 1] < a ==> AcceptedIn(times, limit, a) == 0
  {
    var n := |times| - 1;
    var earlier := times[..n];
    BucketCountsItsWindow(times);
    if earlier == [] {
      assert AcceptedIn(earlier, limit, a) == 0;
    } else {
      AcceptedWithinAllowance(earlier, limit, a);
      BucketCountsItsWindow(earlier);
      assert earlier[n - 1] <= times[n];
    }
  }

  /** At most twice the limit gets through in any sixty seconds. */
  lemma AtMostTwiceTheLimit(times: seq<int>, limit: nat, a: int)
    requires Ordered(times)
    ensures AcceptedIn(times, limit, a) <= 2 * limit
  {
    if times != [] {
      AcceptedWithinAllowance(times, limit, a);
    }
  }

  // ---------- all keys, with pruning ----------

  function Pruned(m: map<Key, Bucket>, now: int): map<Key, Bucket> {
    map k | k in m && !Expired(m[k], now) :: m[k]
  }

  /** Where the pruned map lacks a bucket of the full one, that bucket has expired. */
  ghost predicate Agrees(pruned: map<Key, Bucket>, full: map<Key, Bucket>, clock: int) {
    && (forall k :: k in pruned ==> k in full && pruned[k] == full[k])
    && (forall k :: k in full && k !in pruned ==> Expired(full[k], clock))
  }

  lemma SameAnswer(pruned: map<Key, Bucket>, full: map<Key, Bucket>, clock: int, k: Key, now: int)
    requires Agrees(pruned, full, clock) && clock <= now
    ensures Hit(BucketOf(pruned, k), now) == Hit(BucketOf(full, k), now)
    ensures var b := Hit(BucketOf(full, k), now);
            && Agrees(pruned[k := b], full[k := b], now)
            && Agrees(Pruned(pruned[k := b], now), full[k := b], now)
  {
  }

  /** Every key's requests in one log. */
  datatype Entry = Entry(key: Key, at: int)

  function TimesOf(log: seq<Entry>, k: Key): seq<int> {
    if log == [] then []
    else if log[|log| - 1].key == k then TimesOf(log[..|log| - 1], k) + [log[|log| - 1].at]
    else TimesOf(log[..|log| - 1], k)
  }

  ghost predicate Follows(full: map<Key, Bucket>, log: seq<Entry>) {
    forall k :: BucketOf(full, k) == BucketAfter(TimesOf(log, k))
  }

  lemma RequestFollows(full: map<Key, Bucket>, log: seq<Entry>, key: Key, now: int)
    requires Follows(full, log)
    ensures Follows(full[key := Hit(BucketOf(full, key), now)], log + [Entry(key, now)])
  {
    var after := log + [Entry(key, now)];
    assert after[..|log|] == log;
    forall k
      ensures BucketOf(full[key := Hit(BucketOf(full, key), now)], k) == BucketAfter(TimesOf(after, k))
    {
      if k == key {
        var times := TimesOf(log, key);
        assert (times + [now])[..|times|] == times;
        assert BucketOf(full, key) == BucketAfter(times);
      }
    }
  }

  ghost predicate InOrder(log: seq<Entry>, clock: int) {
    log != [] ==> log[|log| - 1].at <= clock && InOrder(log[..|log| - 1], log[|log| - 1].at)
  }

  lemma {:induction false} TimesInOrder(log: seq<Entry>, clock: int, k: Key)
    requires InOrder(log, clock)
    ensures Ordered(TimesOf(log, k)) && forall i :: 0 <= i < |TimesOf(log, k)| ==> TimesOf(log, k)[i] <= clock
  {
    if log != [] {
      TimesInOrder(log[..|log| - 1], log[|log| - 1].at, k);
    }
  }

  class RateLimiter {
    const limits: Limits
    var order: seq<Key>
    var rateBuckets: map<Key, Bucket>
    ghost var full: map<Key, Bucket>
    ghost var log: seq<Entry>
    ghost var clock: int

    ghost predicate Valid()
      reads this
    {
      && (forall k :: k in order <==> k in rateBuckets)
      && Agrees(rateBuckets, full, clock)
      && Follows(full, log) && InOrder(log, clock)
    }

    constructor (limits: Limits)
      ensures Valid() && this.limits == limits && log == []
    {
      this.limits := limits;
      order, rateBuckets, full, log, clock := [], map[], map[], [], 0;
    }

    method Prune(now: int)
      requires forall k :: k in order <==> k in rateBuckets
      modifies this`order, this`rateBuckets
      ensures rateBuckets == Pruned(old(rateBuckets), now)
      ensures forall k :: k in order <==> k in rateBuckets
    {
      var kept: seq<Key> := [];
      for i := 0 to |order|
        modifies this`rateBuckets
        invariant forall k :: k in kept <==> k in order[..i] && !Expired(old(rateBuckets)[k], now)
        invariant forall k :: k in rateBuckets <==> k in old(rateBuckets) && (k in order[..i] ==> !Expired(old(rateBuckets)[k], now))
        invariant forall k :: k in rateBuckets ==> rateBuckets[k] == old(rateBuckets)[k]
      {
        var k := order[i];
        assert k in order;
        assert order[..i + 1] == order[..i] + [k];
        if k in rateBuckets && Expired(rateBuckets[k], now) {
          rateBuckets := rateBuckets - {k};
        } else if k in rateBuckets {
          kept := kept + [k];
        }
      }
      assert order[..|order|] == order;
      order := kept;
    }

    /** Pruning never changes an answer: it is the one the key's own requests
        determine, as if no bucket had ever been deleted. */
    method AllowRequest(key: Key, now: int) returns (allowed: bool)
      requires Valid() && now >= clock
      modifies this
      ensures Valid() && log == old(log) + [Entry(key, now)] && clock == now
      ensures TimesOf(log, key) != []
      ensures allowed <==> BucketAfter(TimesOf(log, key)).value.count <= if key.kind.Auth? then limits.auth else limits.api
    {
      SameAnswer(rateBuckets, full, clock, key, now);
      RequestFollows(full, log, key, now);
      var bucket := Hit(BucketOf(rateBuckets, key), now);
      if key !in rateBuckets {
        order := order + [key];
      }
      rateBuckets := rateBuckets[key := bucket];
      full, log, clock := full[key := bucket], log + [Entry(key, now)], now;
      assert log[..|log| - 1] == old(log);
      assert BucketOf(full, key) == BucketAfter(TimesOf(log, key));
      if |rateBuckets| > MAX_BUCKETS {
        Prune(now);
      }
      allowed := Accepts(bucket, LimitOf(limits, key));
    }

    /** Whatever came in for whichever keys, no key gets more than twice its
        limit through in any sixty seconds. */
    lemma BurstBounded(key: Key, a: int)
      requires Valid()
      ensures AcceptedIn(TimesOf(log, key), LimitOf(limits, key), a) <= 2 * LimitOf(limits, key)
    {
      TimesInOrder(log, clock, key);
      AtMostTwiceTheLimit(TimesOf(log, key), LimitOf(limits, key), a);
    }
  }
}
