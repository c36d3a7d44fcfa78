// Retention scoped to the tenant: the newest runs of each tenant survive.
module Retention {
  import opened Wrappers

  /** A run summary; its position stands for its identity. */
  datatype Summary = Summary(tenant: Name, id: Name)

  function Of(runs: seq<Summary>, t: Name): seq<Summary> {
    if runs == [] then [] else if runs[0].tenant == t then [runs[0]] + Of(runs[1..], t) else Of(runs[1..], t)
  }

  /** A run survives when fewer than `cap` runs of its tenant come after it. */
  function Retain(runs: seq<Summary>, cap: nat): seq<Summary> {
    if runs == [] then []
    else if |Of(runs[1..], runs[0].tenant)| < cap then [runs[0]] + Retain(runs[1..], cap)
    else Retain(runs[1..], cap)
  }

  function LastOf(s: seq<Summary>, n: nat): seq<Summary> {
    if |s| <= n then s else s[|s| - n..]
  }

  /** Non-interference: the survivors of a tenant are exactly the last `cap` of
      its own runs, whatever the other tenants do. */
  lemma {:induction false} SurvivorsOfTenant(runs: seq<Summary>, cap: nat, t: Name)
    ensures Of(Retain(runs, cap), t) == LastOf(Of(runs, t), cap)
  {
    if runs != [] {
      SurvivorsOfTenant(runs[1..], cap, t);
      var rest := Retain(runs[1..], cap);
      assert ([runs[0]] + rest)[1..] == rest;
    }
  }

  ghost predicate Subsequence(a: seq<Summary>, b: seq<Summary>) {
    a == [] || (b != [] && ((a[0] == b[0] && Subsequence(a[1..], b[1..])) || Subsequence(a, b[1..])))
  }

  /** The survivors keep their order across tenants. */
  lemma {:induction false} OrderPreserved(runs: seq<Summary>, cap: nat)
    ensures Subsequence(Retain(runs, cap), runs)
  {
    if runs != [] {
      OrderPreserved(runs[1..], cap);
      var rest := Retain(runs[1..], cap);
      assert ([runs[0]] + rest)[1..] == rest;
    }
  }

  /** A second pass changes nothing. */
  lemma {:induction false} RetainIsIdempotent(runs: seq<Summary>, cap: nat)
    ensures Retain(Retain(runs, cap), cap) == Retain(runs, cap)
  {
    if runs != [] {
      RetainIsIdempotent(runs[1..], cap);
      var rest, t := Retain(runs[1..], cap), runs[0].tenant;
      SurvivorsOfTenant(runs[1..], cap, t);
      assert ([runs[0]] + rest)[1..] == rest;
    }
  }

  // ---------- the operation ----------

  ghost predicate Rises(s: seq<nat>) {
    forall i, j :: 0 <= i < j < |s| ==> s[i] < s[j]
  }

  /** The positions of a tenant's runs among the first n, oldest first. */
  ghost predicate IsBucket(b: seq<nat>, runs: seq<Summary>, n: nat, t: Name)
    requires n <= |runs|
  {
    && Rises(b)
    && (forall i :: i in b ==> i < n && runs[i].tenant == t)
    && (forall i :: 0 <= i < n && runs[i].tenant == t ==> i in b)
  }

  lemma {:induction false} BucketCountsLater(b: seq<nat>, runs: seq<Summary>, t: Name, k: nat)
    requires IsBucket(b, runs, |runs|, t) && k < |b|
    ensures b[k] < |runs|
    ensures |Of(runs[b[k] + 1..], t)| == |b| - k - 1
    decreases |b| - k
  {
    assert b[k] in b;
    if k == |b| - 1 {
      NoneLater(runs, b[k] + 1, t, |runs|, b);
      assert runs[|runs|..] == [];
    } else {
      assert b[k + 1] in b && b[k] < b[k + 1];
      BucketCountsLater(b, runs, t, k + 1);
      NoneLater(runs, b[k] + 1, t, b[k + 1], b);
      assert runs[b[k + 1]..][1..] == runs[b[k + 1] + 1..];
    }
  }

  /** Between two neighbours of a bucket the tenant has no runs. */
  lemma {:induction false} NoneLater(runs: seq<Summary>, from: nat, t: Name, upto: nat, b: seq<nat>)
    requires from <= upto <= |runs| && IsBucket(b, runs, |runs|, t) && forall i :: i in b ==> i < from || i >= upto
    ensures Of(runs[from..], t) == Of(runs[upto..], t)
    decreases upto - from
  {
    if from < upto {
      assert runs[from].tenant != t;
      assert runs[from..][1..] == runs[from + 1..];
      NoneLater(runs, from + 1, t, upto, b);
    }
  }

  ghost predicate AreBuckets(buckets: map<Name, seq<nat>>, runs: seq<Summary>, n: nat)
    requires n <= |runs|
  {
    && (forall t :: t in buckets ==> IsBucket(buckets[t], runs, n, t))
    && (forall i :: 0 <= i < n ==> runs[i].tenant in buckets)
  }

  lemma RiseGrows(s: seq<nat>, n: nat)
    requires Rises(s) && forall x :: x in s ==> x < n
    ensures Rises(s + [n])
  {
    forall i, j | 0 <= i < j < |s + [n]|
      ensures (s + [n])[i] < (s + [n])[j]
    {
      assert s[i] in s;
    }
  }

  lemma BucketsGrow(buckets: map<Name, seq<nat>>, runs: seq<Summary>, n: nat)
    requires n < |runs| && AreBuckets(buckets, runs, n)
    ensures var t := runs[n].tenant;
            AreBuckets(buckets[t := (if t in buckets then buckets[t] else []) + [n]], runs, n + 1)
  {
    var t := runs[n].tenant;
    var before := if t in buckets then buckets[t] else [];
    RiseGrows(before, n);
    assert n in before + [n];
  }

  method FillBuckets(runs: seq<Summary>) returns (order: seq<Name>, buckets: map<Name, seq<nat>>)
    ensures AreBuckets(buckets, runs, |runs|) && forall t :: t in order <==> t in buckets
  {
    order, buckets := [], map[];
    for i := 0 to |runs|
      invariant AreBuckets(buckets, runs, i)
      invariant forall t :: t in order <==> t in buckets
    {
      var t := runs[i].tenant;
      BucketsGrow(buckets, runs, i);
      if t in buckets {
        buckets := buckets[t := buckets[t] + [i]];
      } else {
        order := order + [t];
        buckets := buckets[t := [i]];
      }
    }
  }

  ghost predicate Kept(runs: seq<Summary>, cap: nat, i: nat)
    requires i < |runs|
  {
    |Of(runs[i + 1..], runs[i].tenant)| < cap
  }

  method KeepNewest(bucket: seq<nat>, cap: nat, runs: seq<Summary>, ghost t: Name) returns (keep: set<nat>)
    requires IsBucket(bucket, runs, |runs|, t)
    ensures forall i :: i in keep <==> 0 <= i < |runs| && runs[i].tenant == t && Kept(runs, cap, i)
  {
    keep := {};
    var first := if |bucket| > cap then |bucket| - cap else 0;
    for k := first to |bucket|
      invariant forall i :: i in keep <==> i in bucket[first..k]
    {
      assert bucket[first..k + 1] == bucket[first..k] + [bucket[k]];
      keep := keep + {bucket[k]};
    }
    assert bucket[first..|bucket|] == bucket[first..];
    BucketEnd(bucket, cap, runs, t, first);
  }

  /** The kept runs of a tenant are the end of its bucket. */
  lemma BucketEnd(bucket: seq<nat>, cap: nat, runs: seq<Summary>, t: Name, first: nat)
    requires IsBucket(bucket, runs, |runs|, t)
    requires first == if |bucket| > cap then |bucket| - cap else 0
    ensures forall i :: i in bucket[first..] <==> 0 <= i < |runs| && runs[i].tenant == t && Kept(runs, cap, i)
  {
    forall i
      ensures i in bucket[first..] <==> 0 <= i < |runs| && runs[i].tenant == t && Kept(runs, cap, i)
    {
      if i in bucket {
        var k :| 0 <= k < |bucket| && bucket[k] == i;
        BucketCountsLater(bucket, runs, t, k);
        InEndIff(bucket, first, k);
      }
    }
  }

  lemma InEndIff(bucket: seq<nat>, first: nat, k: nat)
    requires Rises(bucket) && first <= |bucket| && k < |bucket|
    ensures bucket[k] in bucket[first..] <==> k >= first
  {
    assert k >= first ==> bucket[first..][k - first] == bucket[k];
    if bucket[k] in bucket[first..] {
      var j :| 0 <= j < |bucket| - first && bucket[first..][j] == bucket[k];
      assert bucket[first + j] == bucket[k];
    }
  }

  method RetainPerTenant(runs: seq<Summary>, cap: nat) returns (kept: seq<Summary>)
    ensures kept == Retain(runs, cap)
  {
    var order, buckets := FillBuckets(runs);
    var keep: set<nat> := {};
    for k := 0 to |order|
      invariant forall i :: i in keep <==> 0 <= i < |runs| && runs[i].tenant in order[..k] && Kept(runs, cap, i)
    {
      var t := order[k];
      assert t in order;
      assert order[..k + 1] == order[..k] + [t];
      var newest := KeepNewest(buckets[t], cap, runs, t);
      keep := keep + newest;
    }
    assert order[..|order|] == order;
    kept := [];
    var i := |runs|;
    while i > 0
      invariant 0 <= i <= |runs|
      invariant kept == Retain(runs[i..], cap)
    {
      i := i - 1;
      assert runs[i..][1..] == runs[i + 1..];
      if i in keep {
        kept := [runs[i]] + kept;
      }
    }
  }
}
