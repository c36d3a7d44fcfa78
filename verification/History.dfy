// How long a retired run stays in the bounded history, over every behaviour.
module History {
  import opened RunStates
  import opened Checkpoints
  import opened Lifecycle
  import opened Orchestrator

  /** How many entries of the listing come after a run. */
  function Later(order: seq<RunId>, r: RunId): (n: nat)
    ensures r in order ==> n < |order|
  {
    if order == [] then 0 else if order[0] == r then |order| - 1 else Later(order[1..], r)
  }

  lemma {:induction false} LaterOfWithout(order: seq<RunId>, q: RunId, r: RunId)
    requires r in order && r != q
    ensures r in Without(order, q) && Later(Without(order, q), r) <= Later(order, r)
  {
    var rest := Without(order[1..], q);
    assert ([order[0]] + rest)[1..] == rest;
    if order[0] == r {
      WithoutIsShorter(order[1..], q);
      assert Without(order, q) == [r] + rest;
    } else {
      assert r in order[1..] by {
        assert order == [order[0]] + order[1..];
      }
      LaterOfWithout(order[1..], q, r);
      if order[0] == q {
        assert Without(order, q) == rest;
      } else {
        assert Without(order, q) == [order[0]] + rest;
      }
    }
  }

  lemma WithoutIsShorter(order: seq<RunId>, q: RunId)
    ensures |Without(order, q)| <= |order|
  {
  }

  lemma {:induction false} LaterOfLonger(order: seq<RunId>, q: RunId, r: RunId)
    requires r in order
    ensures r in order + [q] && Later(order + [q], r) == Later(order, r) + 1
  {
    if order[0] != r {
      LaterOfLonger(order[1..], q, r);
      assert (order + [q])[1..] == order[1..] + [q];
    }
  }

  lemma NewestOfTail(order: seq<RunId>, max: nat)
    requires |order| > max && forall i, j :: 0 <= i < j < |order| ==> order[i] != order[j]
    ensures NewestRetired(order, max) == NewestRetired(order[1..], max) && order[0] !in NewestRetired(order, max)
    ensures forall q :: q in order && q != order[0] ==> q in order[1..]
  {
    var newest := NewestRetired(order, max);
    assert forall i :: 0 <= i < |newest| ==> newest[i] == order[|order| - max + i];
    assert order == [order[0]] + order[1..];
  }

  /** An entry stays among the newest exactly while fewer than `max` come after it. */
  lemma {:induction false} LaterOfNewest(order: seq<RunId>, max: nat, r: RunId)
    requires r in order && forall i, j :: 0 <= i < j < |order| ==> order[i] != order[j]
    ensures r in NewestRetired(order, max) <==> Later(order, r) < max
    ensures r in NewestRetired(order, max) ==> Later(NewestRetired(order, max), r) == Later(order, r)
    decreases |order|
  {
    if |order| > max {
      NewestOfTail(order, max);
      if order[0] != r {
        assert r in order[1..];
        LaterOfNewest(order[1..], max, r);
      }
    }
  }

  // ---------- one action ----------

  /** The action retires its run: a live one leaves the live map, or a retried one
      ends at once. */
  predicate Retires(s: Registry, a: Act, t: Registry) {
    a.id in t.terminal && (a.id in s.active || (a.Retry? && t != s))
  }

  /** The run is still in the history, at most one place further back, and that
      only if another run was retired. */
  ghost predicate Keeps(s: Registry, t: Registry, r: RunId, retired: bool) {
    r in t.order && Later(t.order, r) <= Later(s.order, r) + if retired then 1 else 0
  }

  /** What a stretch of one run does to the listing. */
  lemma CommitListing(s: Registry, q: RunId, e: Ending, max: nat)
    requires Invariant(s, max) && max > 0
    ensures var t := CommitSpec(s, q, e, max);
            || (t.order == s.order && t.terminal == s.terminal && t.active == s.active)
            || (q in s.active && q in t.terminal && t.order == NewestRetired(s.order + [q], max))
  {
    var u := s.(runs := s.runs[q := e.run]);
    if e.retired && q in s.active {
      assert q !in s.order;
      EvictKeepsNewest(s.order + [q], s.terminal[q := e.run.status], q, max);
      LaterOfItself(s.order, q);
      LaterOfNewest(s.order + [q], max, q);
    }
  }

  lemma {:induction false} LaterOfItself(order: seq<RunId>, q: RunId)
    requires q !in order
    ensures Later(order + [q], q) == 0
  {
    if order != [] {
      LaterOfItself(order[1..], q);
      assert (order + [q])[1..] == order[1..] + [q];
    }
  }

  lemma EntryMovesBack(order: seq<RunId>, q: RunId, max: nat, r: RunId)
    requires r in order && q !in order && forall i, j :: 0 <= i < j < |order| ==> order[i] != order[j]
    requires Later(order, r) + 1 < max
    ensures var longer := NewestRetired(order + [q], max); r in longer && Later(longer, r) == Later(order, r) + 1
  {
    LaterOfLonger(order, q, r);
    LaterOfNewest(order + [q], max, r);
  }

  /** The listing is as it was, or has the action's run as its newest entry. */
  ghost predicate Listing(s: Registry, id: RunId, t: Registry, max: nat) {
    || (t.order == s.order && t.terminal == s.terminal && t.active == s.active)
    || (id in s.active && id in t.terminal && t.order == NewestRetired(s.order + [id], max))
  }

  lemma StretchListing(cfg: Settings, s: Registry, a: Act, max: nat)
    requires Invariant(s, max) && max > 0 && (a.Start? || a.Step? || a.Deadline? || a.FinishCancel?)
    ensures Listing(s, a.id, Perform(cfg, max, s, a), max)
  {
    var id := a.id;
    match a
    case Start(_, env) =>
      if id in s.runs {
        CommitListing(s, id, StartRun(cfg.of(id), s.runs[id], env), max);
      }
    case Step(_, i, env) =>
      if id in s.runs && i < |s.runs[id].loops| {
        CommitListing(s, id, Advance(cfg.of(id), s.runs[id], id in s.active, Known(s, id), i, env), max);
      }
    case Deadline(_) =>
      if id in s.runs {
        CommitListing(s, id, DeadlineFires(s.runs[id], id in s.active, Known(s, id)), max);
      }
    case FinishCancel(_) =>
      if id in s.runs {
        InvariantIgnoresWaits(s, s.cancels - multiset{id}, s.pending, max);
        CommitListing(s.(cancels := s.cancels - multiset{id}), id, Lifecycle.FinishCancel(s.runs[id], id in s.active, Known(s, id)), max);
      }
  }

  /** A retry first takes its run off the history. */
  lemma RetryListing(cfg: Settings, s: Registry, q: RunId, t: Retrial, env: Env, max: nat)
    requires Invariant(s, max) && max > 0
    ensures var u, v := if q in s.terminal then ResurrectSpec(s, q) else s, RetrySpec(cfg, max, s, q, t, env);
            v == s || (Invariant(u, max) && Listing(u, q, v, max))
  {
    if q in s.terminal && s.terminal[q] == Failed {
      ResurrectKeepsInvariant(s, q, max);
    }
    var u := if q in s.terminal then ResurrectSpec(s, q) else s;
    if q in u.runs && RetryProceeds(u.runs[q], t) && !(q in s.terminal && s.terminal[q] != Failed) {
      CommitListing(u, q, RetryRun(cfg.of(q), u.runs[q], t, env), max);
    }
  }

  lemma ListingKeepsEntry(s: Registry, id: RunId, t: Registry, max: nat, r: RunId)
    requires Invariant(s, max) && Listing(s, id, t, max) && r in s.order
    requires Later(s.order, r) + (if id in s.active && id in t.terminal then 1 else 0) < max
    ensures Keeps(s, t, r, id in s.active && id in t.terminal)
  {
    if t.order != s.order {
      assert id !in s.order;
      EntryMovesBack(s.order, id, max, r);
    }
  }

  lemma RetryIsListing(cfg: Settings, s: Registry, a: Act, max: nat)
    requires Invariant(s, max) && max > 0 && a.Retry?
    ensures RetriedListing(s, a.id, Perform(cfg, max, s, a), max)
  {
    RetryListing(cfg, s, a.id, a.trial, a.env, max);
  }

  ghost predicate RetriedListing(s: Registry, q: RunId, t: Registry, max: nat) {
    var u := if q in s.terminal then ResurrectSpec(s, q) else s;
    t == s || (Invariant(u, max) && Listing(u, q, t, max))
  }

  lemma RetriedKeepsEntry(s: Registry, q: RunId, t: Registry, max: nat, r: RunId)
    requires RetriedListing(s, q, t, max) && t != s
    requires r in s.order && q != r && Later(s.order, r) + (if q in t.terminal then 1 else 0) < max
    ensures Keeps(s, t, r, q in t.terminal)
  {
    LaterOfWithout(s.order, q, r);
    ListingKeepsEntry(if q in s.terminal then ResurrectSpec(s, q) else s, q, t, max, r);
  }

  /** One action takes a retired run other than its own off the history only by
      retiring another as one too many. */
  lemma ActionKeepsEntry(cfg: Settings, s: Registry, a: Act, max: nat, r: RunId)
    requires Invariant(s, max) && max > 0 && r in s.order && !(a.Retry? && a.id == r)
    requires Later(s.order, r) + (if Retires(s, a, Perform(cfg, max, s, a)) then 1 else 0) < max
    ensures Keeps(s, Perform(cfg, max, s, a), r, Retires(s, a, Perform(cfg, max, s, a)))
  {
    if a.Retry? {
      RetryIsListing(cfg, s, a, max);
      if Perform(cfg, max, s, a) != s {
        RetriedKeepsEntry(s, a.id, Perform(cfg, max, s, a), max, r);
      }
    } else if a.Start? || a.Step? || a.Deadline? || a.FinishCancel? {
      StretchListing(cfg, s, a, max);
      ListingKeepsEntry(s, a.id, Perform(cfg, max, s, a), max, r);
    }
  }

  // ---------- whole behaviours ----------

  predicate RetiresAt(states: seq<Registry>, acts: seq<Act>, i: nat)
    requires i < |acts| && i + 1 < |states|
  {
    Retires(states[i], acts[i], states[i + 1])
  }

  /** How many actions from k up to l retire a run. */
  function Retirements(states: seq<Registry>, acts: seq<Act>, k: nat, l: nat): nat
    requires k <= l <= |acts| && |states| == |acts| + 1
  {
    if k == l then 0 else Retirements(states, acts, k, l - 1) + if RetiresAt(states, acts, l - 1) then 1 else 0
  }

  lemma NextKeepsEntry(cfg: Settings, max: nat, states: seq<Registry>, acts: seq<Act>, i: nat, r: RunId)
    requires Behaviour(cfg, max, states, acts) && i < |acts| && r in states[i].order && !(acts[i].Retry? && acts[i].id == r)
    requires Later(states[i].order, r) + (if RetiresAt(states, acts, i) then 1 else 0) < max
    ensures Keeps(states[i], states[i + 1], r, RetiresAt(states, acts, i))
  {
    ReachableSatisfiesInvariant(cfg, max, states, acts, i);
    assert StepAt(cfg, max, states, acts, i);
    ActionKeepsEntry(cfg, states[i], acts[i], max, r);
  }

  lemma {:induction false} EntryStays(cfg: Settings, max: nat, states: seq<Registry>, acts: seq<Act>, k: nat, l: nat, r: RunId)
    requires Behaviour(cfg, max, states, acts) && k <= l <= |acts| && r in states[k].order
    requires forall i: nat :: k <= i < l ==> !(acts[i].Retry? && acts[i].id == r)
    requires Later(states[k].order, r) + Retirements(states, acts, k, l) < max
    ensures r in states[l].order && Later(states[l].order, r) <= Later(states[k].order, r) + Retirements(states, acts, k, l)
    decreases l
  {
    if k < l {
      EntryStays(cfg, max, states, acts, k, l - 1, r);
      NextKeepsEntry(cfg, max, states, acts, l - 1, r);
    }
  }

  /** A retired run stays in the history, and so can be retried, until it is
      retried itself or as many runs as the history holds have retired since. */
  lemma {:induction false} RetiredRunStays(cfg: Settings, max: nat, states: seq<Registry>, acts: seq<Act>, k: nat, l: nat, r: RunId)
    requires Behaviour(cfg, max, states, acts) && k <= l <= |acts| && r in states[k].terminal
    requires forall i: nat :: k <= i < l ==> !(acts[i].Retry? && acts[i].id == r)
    requires Later(states[k].order, r) + Retirements(states, acts, k, l) < max
    ensures r in states[l].terminal && r in states[l].runs && states[l].terminal[r] == states[l].runs[r].status
  {
    ReachableSatisfiesInvariant(cfg, max, states, acts, k);
    EntryStays(cfg, max, states, acts, k, l, r);
    ReachableSatisfiesInvariant(cfg, max, states, acts, l);
  }

  /** A run that an action has just retired is the newest entry. */
  lemma JustRetiredIsNewest(cfg: Settings, s: Registry, a: Act, max: nat)
    requires Invariant(s, max) && max > 0 && a.id in s.active && a.id in Perform(cfg, max, s, a).terminal
    ensures a.id in Perform(cfg, max, s, a).order && Later(Perform(cfg, max, s, a).order, a.id) == 0
  {
    var r := a.id;
    assert r !in s.order && r !in s.terminal;
    if a.Retry? {
      RetryListing(cfg, s, r, a.trial, a.env, max);
      assert Perform(cfg, max, s, a) == RetrySpec(cfg, max, s, r, a.trial, a.env);
    } else if a.Start? || a.Step? || a.Deadline? || a.FinishCancel? {
      StretchListing(cfg, s, a, max);
    }
    LaterOfItself(s.order, r);
    LaterOfNewest(s.order + [r], max, r);
  }
}
