// The registry of runs, the actions that interleave on it, and what holds
// after every sequence of them.
module Orchestrator {
  import opened RunStates
  import opened Checkpoints
  import opened Lifecycle
  import opened LifecycleSafety
  import opened StepOrder
  import opened Outcomes

  /** The configuration resolved for each run, and the bound on live runs that a
      new one must respect. */
  datatype Settings = Settings(of: RunId -> Config, maxConcurrent: nat)

  /** `runs` are the state and control objects by id; `active` and `control`
      say which are live; `terminal` and `order` hold the retired ones;
      `cancels` are cancellations still in their wait, and `pending` creations
      that have passed the bound check and wait for the tool catalog. */
  datatype Registry = Registry(runs: map<RunId, Run>, active: set<RunId>, control: set<RunId>,
                               terminal: map<RunId, Status>, order: seq<RunId>, cancels: multiset<RunId>, pending: set<RunId>)

  const EMPTY := Registry(map[], {}, {}, map[], [], multiset{}, {})

  function Known(s: Registry, r: RunId): bool {
    r in s.control || r in s.terminal
  }

  // ---------- retirement ----------

  /** Shifts the oldest retired runs out until at most `max` are listed. */
  function Evict(order: seq<RunId>, terminal: map<RunId, Status>, keep: RunId, max: nat): (seq<RunId>, map<RunId, Status>)
    decreases |order|
  {
    if |order| <= max then (order, terminal)
    else Evict(order[1..], if order[0] in terminal && order[0] != keep then terminal - {order[0]} else terminal, keep, max)
  }

  function RetireSpec(s: Registry, r: RunId, max: nat): Registry {
    if r !in s.active || r !in s.control || r !in s.runs then s
    else
      var (order, terminal) := Evict(s.order + [r], s.terminal[r := s.runs[r].status], r, max);
      s.(active := s.active - {r}, control := s.control - {r}, terminal := terminal, order := order)
  }

  function CommitSpec(s: Registry, r: RunId, e: Ending, max: nat): Registry {
    var t := s.(runs := s.runs[r := e.run]);
    if e.retired then RetireSpec(t, r, max) else t
  }

  function Without(order: seq<RunId>, r: RunId): seq<RunId> {
    if order == [] then []
    else (if order[0] == r then [] else [order[0]]) + Without(order[1..], r)
  }

  function ResurrectSpec(s: Registry, r: RunId): Registry {
    s.(terminal := s.terminal - {r}, order := Without(s.order, r), active := s.active + {r}, control := s.control + {r})
  }

  // ---------- actions ----------

  datatype Act =
    | Create(id: RunId)                      // a creation up to its await
    | Insert(id: RunId)                      // the same after its await
    | Start(id: RunId, env: Env)
    | Step(id: RunId, loop: nat, env: Env)   // a suspended loop resumes
    | Deadline(id: RunId)                    // the run's timer fires
    | Cancel(id: RunId)                      // a cancellation up to its wait
    | FinishCancel(id: RunId)                // the same after its wait
    | Retry(id: RunId, trial: Retrial, env: Env)

  function RetrySpec(cfg: Settings, max: nat, s: Registry, r: RunId, t: Retrial, env: Env): Registry {
    if r in s.terminal && (s.terminal[r] != Failed || t.overBudget) then s
    else
      var u := if r in s.terminal then ResurrectSpec(s, r) else s;
      if r !in u.active || r !in u.control || r !in u.runs || u.runs[r].status != Failed
         || u.runs[r].running || t.overBudget || !RetryProceeds(u.runs[r], t) then u
      else CommitSpec(u, r, RetryRun(cfg.of(r), u.runs[r], t, env), max)
  }

  function InsertSpec(s: Registry, r: RunId): Registry {
    s.(runs := s.runs[r := NewRun], active := s.active + {r}, control := s.control + {r}, pending := s.pending - {r})
  }

  /** What lets a retry of a run through: it is FAILED and not yet evicted from
      the history, within its budget, and recovery proceeds. */
  predicate LetThrough(s: Registry, r: RunId, t: Retrial) {
    && r in s.runs && s.runs[r].status == Failed && (r in s.terminal || r in s.active)
    && !t.overBudget && RetryProceeds(s.runs[r], t)
  }

  /** The guards of a retry, as the code tests them. */
  predicate Guarded(s: Registry, r: RunId, t: Retrial) {
    && r in s.runs && s.runs[r].status == Failed && !s.runs[r].running && !t.overBudget
    && (if r in s.terminal then s.terminal[r] == Failed else r in s.active && r in s.control)
    && RetryProceeds(s.runs[r], t)
  }

  /** One action; it changes nothing when it is not enabled. */
  function Perform(cfg: Settings, max: nat, s: Registry, a: Act): Registry {
    var r := a.id;
    match a
    case Create(_) =>
      if r in s.runs || r in s.pending || |s.active| >= cfg.maxConcurrent then s
      else s.(pending := s.pending + {r})
    case Insert(_) =>
      if r !in s.pending then s else InsertSpec(s, r)
    case Start(_, env) =>
      if r !in s.runs || !StartAllowed(s.runs[r], r in s.active, r in s.control, r in s.terminal) then s
      else CommitSpec(s, r, StartRun(cfg.of(r), s.runs[r], env), max)
    case Step(_, i, env) =>
      if r !in s.runs || i >= |s.runs[r].loops| then s
      else CommitSpec(s, r, Advance(cfg.of(r), s.runs[r], r in s.active, Known(s, r), i, env), max)
    case Deadline(_) =>
      if r !in s.runs || !s.runs[r].deadline then s
      else CommitSpec(s, r, DeadlineFires(s.runs[r], r in s.active, Known(s, r)), max)
    case Cancel(_) =>
      if r !in s.runs || r in s.terminal || r !in s.active || r !in s.control || Terminal(s.runs[r].status) then s
      else s.(runs := s.runs[r := RequestCancel(s.runs[r])], cancels := s.cancels + multiset{r})
    case FinishCancel(_) =>
      if r !in s.runs || r !in s.cancels then s
      else
        var u := s.(cancels := s.cancels - multiset{r});
        CommitSpec(u, r, Lifecycle.FinishCancel(s.runs[r], r in s.active, Known(s, r)), max)
    case Retry(_, t, env) => RetrySpec(cfg, max, s, r, t, env)
  }

  ghost predicate StepAt(cfg: Settings, max: nat, states: seq<Registry>, acts: seq<Act>, i: nat)
    requires i < |acts| && i + 1 < |states|
  {
    states[i + 1] == Perform(cfg, max, states[i], acts[i])
  }

  /** The registries that a sequence of actions passes through. */
  ghost predicate Behaviour(cfg: Settings, max: nat, states: seq<Registry>, acts: seq<Act>) {
    && max > 0 && |states| == |acts| + 1 && states[0] == EMPTY
    && forall i: nat :: i < |acts| ==> StepAt(cfg, max, states, acts, i)
  }

  // ---------- the invariant of the registry ----------

  ghost predicate Lists(order: seq<RunId>, terminal: map<RunId, Status>) {
    && (forall i, j :: 0 <= i < j < |order| ==> order[i] != order[j])
    && (forall r :: r in order <==> r in terminal)
  }

  ghost predicate Lawful(run: Run) {
    forall x :: x in run.audit.rejected && (x.entered == Created || x.entered == Retrying) ==> x.status == Cancelled
  }

  ghost predicate RunInvariant(s: Registry, r: RunId)
    requires r in s.runs
  {
    Sound(s.runs[r]) && Placed(s.runs[r], r in s.active, Known(s, r)) && Lawful(s.runs[r])
  }

  ghost predicate Invariant(s: Registry, max: nat) {
    && s.active == s.control
    && s.active <= s.runs.Keys && s.pending !! s.runs.Keys
    && Lists(s.order, s.terminal) && |s.order| <= max
    && (forall r :: r in s.terminal ==> r in s.runs && r !in s.active && s.terminal[r] == s.runs[r].status && Terminal(s.terminal[r]))
    && (forall r :: r in s.runs ==> RunInvariant(s, r))
  }

  lemma EvictFirst(order: seq<RunId>, terminal: map<RunId, Status>)
    requires Lists(order, terminal) && order != []
    ensures Lists(order[1..], terminal - {order[0]})
    ensures |order| > 1 ==> order[0] != order[|order| - 1]
  {
    assert order == [order[0]] + order[1..];
    forall q
      ensures q in order[1..] <==> q in terminal - {order[0]}
    {
      assert q in order <==> q in terminal;
    }
  }

  lemma {:induction false} EvictKeepsListing(order: seq<RunId>, terminal: map<RunId, Status>, keep: RunId, max: nat)
    requires Lists(order, terminal) && max > 0 && order != [] && order[|order| - 1] == keep
    ensures var (o, t) := Evict(order, terminal, keep, max);
            && Lists(o, t) && |o| <= max && (forall q :: q in t ==> q in terminal && t[q] == terminal[q])
    decreases |order|
  {
    if |order| > max {
      EvictFirst(order, terminal);
      assert order[0] in order;
      EvictKeepsListing(order[1..], terminal - {order[0]}, keep, max);
    }
  }

  function NewestRetired(order: seq<RunId>, max: nat): seq<RunId> {
    if |order| <= max then order else order[|order| - max..]
  }

  function Restrict(terminal: map<RunId, Status>, order: seq<RunId>): map<RunId, Status> {
    map q | q in terminal && q in order :: terminal[q]
  }

  lemma RestrictDrops(terminal: map<RunId, Status>, order: seq<RunId>, x: RunId)
    requires x !in order
    ensures Restrict(terminal - {x}, order) == Restrict(terminal, order)
  {
  }

  lemma NewestDrops(order: seq<RunId>, terminal: map<RunId, Status>, max: nat)
    requires Lists(order, terminal) && |order| > max
    ensures NewestRetired(order[1..], max) == NewestRetired(order, max) && order[0] !in NewestRetired(order, max)
  {
    assert forall i :: 0 <= i < max ==> NewestRetired(order, max)[i] == order[|order| - max + i];
  }

  /** The eviction loop leaves exactly the newest entries, with what was held of each. */
  lemma {:induction false} EvictKeepsNewest(order: seq<RunId>, terminal: map<RunId, Status>, keep: RunId, max: nat)
    requires Lists(order, terminal) && max > 0 && order != [] && order[|order| - 1] == keep
    ensures Evict(order, terminal, keep, max) == (NewestRetired(order, max), Restrict(terminal, NewestRetired(order, max)))
    decreases |order|
  {
    if |order| > max {
      EvictFirst(order, terminal);
      assert order[0] in order;
      NewestDrops(order, terminal, max);
      EvictKeepsNewest(order[1..], terminal - {order[0]}, keep, max);
      RestrictDrops(terminal, NewestRetired(order, max), order[0]);
    } else {
      assert Restrict(terminal, order) == terminal;
    }
  }

  lemma WithoutRemoves(order: seq<RunId>, r: RunId)
    requires forall i, j :: 0 <= i < j < |order| ==> order[i] != order[j]
    ensures var o := Without(order, r);
            && |o| <= |order| && (forall q :: q in o <==> q in order && q != r)
            && (forall i, j :: 0 <= i < j < |o| ==> o[i] != o[j])
  {
    if order != [] {
      WithoutRemoves(order[1..], r);
      assert order == [order[0]] + order[1..];
      assert order[0] !in order[1..];
    }
  }

  /** Whether ending `e` fits the place run `r` has in the registry. */
  ghost predicate Fits(s: Registry, r: RunId, e: Ending)
    requires r in s.runs
  {
    && KeepsSound(s.runs[r], e) && Lawful(e.run)
    && (r in s.active || e.run.audit.restarts == s.runs[r].audit.restarts)
  }

  lemma UpdateKeepsInvariant(s: Registry, r: RunId, e: Ending, max: nat)
    requires Invariant(s, max) && r in s.runs && Fits(s, r, e) && !e.retired
    ensures Invariant(s.(runs := s.runs[r := e.run]), max)
  {
    assert RunInvariant(s, r);
    var t := s.(runs := s.runs[r := e.run]);
    forall q | q in t.runs
      ensures RunInvariant(t, q)
    {
      if q != r {
        assert RunInvariant(s, q);
      }
    }
  }

  lemma RetireKeepsListing(s: Registry, r: RunId, status: Status, max: nat)
    requires Invariant(s, max) && max > 0 && r in s.active
    ensures var (o, t) := Evict(s.order + [r], s.terminal[r := status], r, max);
            && Lists(o, t) && |o| <= max
            && (forall q :: q in t ==> (q == r && t[q] == status) || (q != r && q in s.terminal && t[q] == s.terminal[q]))
  {
    assert r !in s.order;
    EvictKeepsListing(s.order + [r], s.terminal[r := status], r, max);
  }

  /** A live run that is retired becomes the newest entry of the history, and what
      the history held too much of goes, oldest first. */
  lemma RetiredIsNewest(s: Registry, r: RunId, max: nat)
    requires Invariant(s, max) && max > 0 && r in s.active
    ensures r in s.runs
    ensures var t, order := RetireSpec(s, r, max), NewestRetired(s.order + [r], max);
            t == s.(active := s.active - {r}, control := s.control - {r}, order := order,
                    terminal := Restrict(s.terminal[r := s.runs[r].status], order))
  {
    assert r !in s.order;
    EvictKeepsNewest(s.order + [r], s.terminal[r := s.runs[r].status], r, max);
  }

  lemma RetireKeepsInvariant(s: Registry, r: RunId, e: Ending, max: nat)
    requires Invariant(s, max) && max > 0 && r in s.runs && Fits(s, r, e) && e.retired
    ensures Invariant(CommitSpec(s, r, e, max), max)
    ensures r in s.active
  {
    assert RunInvariant(s, r);
    assert r in s.active;
    RetireKeepsListing(s, r, e.run.status, max);
    var u := CommitSpec(s, r, e, max);
    forall q | q in u.runs
      ensures RunInvariant(u, q)
    {
      if q != r {
        assert RunInvariant(s, q);
      }
    }
  }

  lemma CommitKeepsInvariant(s: Registry, r: RunId, e: Ending, max: nat)
    requires Invariant(s, max) && max > 0 && r in s.runs && Fits(s, r, e)
    ensures Invariant(CommitSpec(s, r, e, max), max)
  {
    if e.retired {
      RetireKeepsInvariant(s, r, e, max);
    } else {
      UpdateKeepsInvariant(s, r, e, max);
    }
  }

  lemma ResurrectKeepsInvariant(s: Registry, r: RunId, max: nat)
    requires Invariant(s, max) && r in s.terminal && s.terminal[r] == Failed
    ensures Invariant(ResurrectSpec(s, r), max)
  {
    WithoutRemoves(s.order, r);
    var u := ResurrectSpec(s, r);
    forall q | q in u.runs
      ensures RunInvariant(u, q)
    {
      assert RunInvariant(s, q);
    }
  }

  // ---------- the registry's actions keep the invariant ----------

  lemma StepIsLawful(cfg: Config, s: Registry, r: RunId, env: Env, max: nat)
    requires Invariant(s, max) && r in s.runs && s.runs[r].loops != []
    ensures Lawful(Advance(cfg, s.runs[r], r in s.active, Known(s, r), 0, env).run)
  {
    var run, active, known := s.runs[r], r in s.active, Known(s, r);
    assert RunInvariant(s, r);
    AdvanceUnfolds(cfg, run, active, known, env);
    ResumedLoopRefusedOnlyWhenCancelled(cfg, WithNoise(cfg, run, env.noise), active, known, run.loops[0], env);
  }

  lemma StepOfRetiredRunReopensNothing(cfg: Config, s: Registry, r: RunId, env: Env, max: nat)
    requires Invariant(s, max) && r in s.runs && s.runs[r].loops != [] && r !in s.active
    ensures Advance(cfg, s.runs[r], r in s.active, Known(s, r), 0, env).run.audit.restarts == s.runs[r].audit.restarts
  {
    var run, active, known := s.runs[r], r in s.active, Known(s, r);
    assert RunInvariant(s, r);
    AdvanceUnfolds(cfg, run, active, known, env);
    ResumeQuietOrCompletes(cfg, WithNoise(cfg, run, env.noise), active, known, run.loops[0], env);
  }

  lemma StepFits(cfg: Config, s: Registry, r: RunId, env: Env, max: nat)
    requires Invariant(s, max) && r in s.runs && s.runs[r].loops != []
    ensures Fits(s, r, Advance(cfg, s.runs[r], r in s.active, Known(s, r), 0, env))
  {
    StepIsLawful(cfg, s, r, env, max);
    assert RunInvariant(s, r);
    AdvanceKeepsSound(cfg, s.runs[r], r in s.active, Known(s, r), env);
    if r !in s.active {
      StepOfRetiredRunReopensNothing(cfg, s, r, env, max);
    }
  }

  lemma NewLoopIsLawful(cfg: Config, run: Run, resume: bool, startStep: nat, env: Env)
    requires Entering(run) && (resume ==> run.status.Retrying?) && Lawful(run)
    ensures Lawful(WithNewLoop(cfg, run, resume, startStep, env).run)
  {
    LaunchIsQuiet(cfg, run, resume, Loop(AtSettle(true), startStep, run.machine), env);
  }

  lemma StartFits(cfg: Config, s: Registry, r: RunId, env: Env, max: nat)
    requires Invariant(s, max) && r in s.runs && StartAllowed(s.runs[r], r in s.active, r in s.control, r in s.terminal)
    ensures Fits(s, r, StartRun(cfg, s.runs[r], env))
  {
    var run := s.runs[r];
    assert RunInvariant(s, r);
    StartKeepsSound(cfg, run, env);
    NewLoopIsLawful(cfg, run.(running := true, abort := false, deadline := true), false, 0, env);
  }

  lemma RetryIsLawful(cfg: Config, run: Run, t: Retrial, env: Env)
    requires Sound(run) && Lawful(run) && run.status == Failed && RetryProceeds(run, t)
    ensures Lawful(RetryRun(cfg, run, t, env).run)
  {
    var reopened := Reopen(run, t);
    NewLoopIsLawful(cfg, reopened, reopened.hasModel, if reopened.hasModel then RetryCursor(run, t) else 0, env);
  }

  lemma RetryFits(cfg: Config, s: Registry, r: RunId, t: Retrial, env: Env, max: nat)
    requires Invariant(s, max) && r in s.runs && r in s.active && s.runs[r].status == Failed && RetryProceeds(s.runs[r], t)
    ensures Fits(s, r, RetryRun(cfg, s.runs[r], t, env))
  {
    assert RunInvariant(s, r);
    RetryKeepsSound(cfg, s.runs[r], t, env);
    RetryIsLawful(cfg, s.runs[r], t, env);
  }

  lemma InterruptionsFit(s: Registry, r: RunId, max: nat)
    requires Invariant(s, max) && r in s.runs
    ensures s.runs[r].deadline ==> Fits(s, r, DeadlineFires(s.runs[r], r in s.active, Known(s, r)))
    ensures Fits(s, r, Lifecycle.FinishCancel(s.runs[r], r in s.active, Known(s, r)))
    ensures !Terminal(s.runs[r].status) ==> Fits(s, r, Ending(RequestCancel(s.runs[r]), false))
  {
    var run, active, known := s.runs[r], r in s.active, Known(s, r);
    assert RunInvariant(s, r);
    InterruptionsKeepSound(run, active, known);
    FailRunIsQuiet(run.(abort := true, deadline := false), active, known);
    CancelledRunIsQuiet(run, active, known);
  }

  lemma RetryKeepsInvariant(cfg: Settings, s: Registry, r: RunId, t: Retrial, env: Env, max: nat)
    requires Invariant(s, max) && max > 0
    ensures Invariant(RetrySpec(cfg, max, s, r, t, env), max)
  {
    if !(r in s.terminal && (s.terminal[r] != Failed || t.overBudget)) {
      var u := if r in s.terminal then ResurrectSpec(s, r) else s;
      if r in s.terminal {
        ResurrectKeepsInvariant(s, r, max);
      }
      if r in u.active && r in u.control && r in u.runs && u.runs[r].status == Failed
         && !u.runs[r].running && !t.overBudget && RetryProceeds(u.runs[r], t) {
        RetryFits(cfg.of(r), u, r, t, env, max);
        CommitKeepsInvariant(u, r, RetryRun(cfg.of(r), u.runs[r], t, env), max);
      }
    }
  }

  lemma InsertKeepsInvariant(s: Registry, r: RunId, max: nat)
    requires Invariant(s, max) && r in s.pending
    ensures Invariant(InsertSpec(s, r), max)
  {
    var u := InsertSpec(s, r);
    forall q | q in u.runs
      ensures RunInvariant(u, q)
    {
      if q != r {
        assert RunInvariant(s, q);
      }
    }
  }

  lemma InvariantIgnoresWaits(s: Registry, cancels: multiset<RunId>, pending: set<RunId>, max: nat)
    requires Invariant(s, max) && pending !! s.runs.Keys
    ensures Invariant(s.(cancels := cancels, pending := pending), max)
  {
    var u := s.(cancels := cancels, pending := pending);
    forall q | q in u.runs
      ensures RunInvariant(u, q)
    {
      assert RunInvariant(s, q);
    }
  }

  lemma CancellationKeepsInvariant(s: Registry, r: RunId, max: nat)
    requires Invariant(s, max) && max > 0 && r in s.runs
    ensures !Terminal(s.runs[r].status) ==>
              Invariant(s.(runs := s.runs[r := RequestCancel(s.runs[r])], cancels := s.cancels + multiset{r}), max)
    ensures var u := s.(cancels := s.cancels - multiset{r});
            Invariant(CommitSpec(u, r, Lifecycle.FinishCancel(s.runs[r], r in s.active, Known(s, r)), max), max)
  {
    if !Terminal(s.runs[r].status) {
      var asked := s.(runs := s.runs[r := RequestCancel(s.runs[r])]);
      InterruptionsFit(s, r, max);
      UpdateKeepsInvariant(s, r, Ending(RequestCancel(s.runs[r]), false), max);
      InvariantIgnoresWaits(asked, s.cancels + multiset{r}, s.pending, max);
    }
    InvariantIgnoresWaits(s, s.cancels - multiset{r}, s.pending, max);
    var u := s.(cancels := s.cancels - multiset{r});
    InterruptionsFit(u, r, max);
    CommitKeepsInvariant(u, r, Lifecycle.FinishCancel(s.runs[r], r in s.active, Known(s, r)), max);
  }

  /** Every action keeps the invariant. */
  lemma PerformKeepsInvariant(cfg: Settings, s: Registry, a: Act, max: nat)
    requires Invariant(s, max) && max > 0
    ensures Invariant(Perform(cfg, max, s, a), max)
  {
    var r := a.id;
    match a
    case Create(_) =>
      if r !in s.runs {
        InvariantIgnoresWaits(s, s.cancels, s.pending + {r}, max);
      }
    case Insert(_) =>
      if r in s.pending {
        InsertKeepsInvariant(s, r, max);
      }
    case Start(_, env) =>
      if r in s.runs && StartAllowed(s.runs[r], r in s.active, r in s.control, r in s.terminal) {
        StartFits(cfg.of(r), s, r, env, max);
        CommitKeepsInvariant(s, r, StartRun(cfg.of(r), s.runs[r], env), max);
      }
    case Step(_, i, env) =>
      if r in s.runs && i < |s.runs[r].loops| {
        assert RunInvariant(s, r);
        assert i == 0;
        StepFits(cfg.of(r), s, r, env, max);
        CommitKeepsInvariant(s, r, Advance(cfg.of(r), s.runs[r], r in s.active, Known(s, r), 0, env), max);
      }
    case Deadline(_) =>
      if r in s.runs && s.runs[r].deadline {
        InterruptionsFit(s, r, max);
        CommitKeepsInvariant(s, r, DeadlineFires(s.runs[r], r in s.active, Known(s, r)), max);
      }
    case Cancel(_) =>
      if r in s.runs {
        CancellationKeepsInvariant(s, r, max);
      }
    case FinishCancel(_) =>
      if r in s.runs {
        CancellationKeepsInvariant(s, r, max);
      }
    case Retry(_, t, env) => RetryKeepsInvariant(cfg, s, r, t, env, max);
  }

  // ---------- every reachable registry ----------

  /** After any sequence of actions, on any number of runs. */
  lemma {:induction false} ReachableSatisfiesInvariant(cfg: Settings, max: nat, states: seq<Registry>, acts: seq<Act>, k: nat)
    requires Behaviour(cfg, max, states, acts) && k < |states|
    ensures Invariant(states[k], max)
  {
    if k > 0 {
      ReachableSatisfiesInvariant(cfg, max, states, acts, k - 1);
      assert StepAt(cfg, max, states, acts, k - 1);
      PerformKeepsInvariant(cfg, states[k - 1], acts[k - 1], max);
    }
  }

  /** No interleaving of starts, loop steps, cancellations, deadlines and
      retries ever has two loops on one run, and a loop that is still live
      either holds the run's `running` flag or belongs to a run that has
      already ended as COMPLETED or CANCELLED. */
  lemma {:induction false} AtMostOneLoop(cfg: Settings, max: nat, states: seq<Registry>, acts: seq<Act>, k: nat, r: RunId)
    requires Behaviour(cfg, max, states, acts) && k < |states| && r in states[k].runs
    ensures var run := states[k].runs[r];
            |run.loops| <= 1 && (run.loops != [] ==> run.running || run.status == Completed || run.status == Cancelled)
  {
    ReachableSatisfiesInvariant(cfg, max, states, acts, k);
    assert RunInvariant(states[k], r);
  }

  /** The end of a run is recorded once per episode. */
  lemma {:induction false} RunEndRecordedOncePerEpisode(cfg: Settings, max: nat, states: seq<Registry>, acts: seq<Act>, k: nat, r: RunId)
    requires Behaviour(cfg, max, states, acts) && k < |states| && r in states[k].runs
    ensures var run := states[k].runs[r]; run.audit.ends == run.audit.restarts + (if Terminal(run.status) then 1 else 0)
  {
    ReachableSatisfiesInvariant(cfg, max, states, acts, k);
    assert RunInvariant(states[k], r);
  }

  /** Live and retired runs are disjoint, the live maps agree, and the order
      list is a bounded duplicate-free listing of the retired runs. */
  lemma {:induction false} RegistryIsConsistent(cfg: Settings, max: nat, states: seq<Registry>, acts: seq<Act>, k: nat)
    requires Behaviour(cfg, max, states, acts) && k < |states|
    ensures var s := states[k];
            && s.active == s.control && s.active !! s.terminal.Keys
            && Lists(s.order, s.terminal) && |s.order| <= max
            && (forall r :: r in s.terminal ==> r in s.runs && s.terminal[r] == s.runs[r].status)
            && (forall r :: r in s.runs && !Terminal(s.runs[r].status) ==> r in s.active)
  {
    ReachableSatisfiesInvariant(cfg, max, states, acts, k);
    var s := states[k];
    forall r | r in s.runs
      ensures !Terminal(s.runs[r].status) ==> r in s.active
    {
      assert RunInvariant(s, r);
    }
  }

  /** Machine and runtime status agree, no ending ever has to force its state,
      and a loop entered from CREATED or RETRYING is refused a transition only
      after a cancellation or deadline has ended the run. */
  lemma {:induction false} MachineAndStatusAgree(cfg: Settings, max: nat, states: seq<Registry>, acts: seq<Act>, k: nat, r: RunId)
    requires Behaviour(cfg, max, states, acts) && k < |states| && r in states[k].runs
    ensures var run := states[k].runs[r];
            && run.machine == run.status && run.audit.forced == 0
            && (forall x :: x in run.audit.rejected && (x.entered == Created || x.entered == Retrying) ==> x.status == Cancelled)
  {
    ReachableSatisfiesInvariant(cfg, max, states, acts, k);
    assert RunInvariant(states[k], r);
  }

  /** A run that is executing and has not been asked to stop has its deadline
      armed, and no deadline is armed on a run that has ended. */
  lemma {:induction false} LiveRunHasDeadline(cfg: Settings, max: nat, states: seq<Registry>, acts: seq<Act>, k: nat, r: RunId)
    requires Behaviour(cfg, max, states, acts) && k < |states| && r in states[k].runs
    ensures var run := states[k].runs[r];
            && (!Terminal(run.status) && run.running && !run.abort ==> run.deadline)
            && (Terminal(run.status) ==> !run.deadline)
  {
    ReachableSatisfiesInvariant(cfg, max, states, acts, k);
    assert RunInvariant(states[k], r);
  }

  // ---------- finished work ----------

  /** A retry that its guards let through, of a failed run, and that goes back. */
  predicate RetryGoesBack(s: Registry, a: Act) {
    a.Retry? && !a.trial.overBudget && a.id in s.runs && s.runs[a.id].status == Failed && GoesBack(s.runs[a.id], a.trial)
  }

  ghost predicate AllSane(cfg: Settings) {
    forall r :: Sane(cfg.of(r))
  }

  ghost predicate AllOrdered(cfg: Settings, s: Registry) {
    forall r :: r in s.runs ==> Ordered(cfg.of(r), s.runs[r])
  }

  lemma CommitChangesOneRun(s: Registry, r: RunId, e: Ending, max: nat)
    ensures CommitSpec(s, r, e, max).runs == s.runs[r := e.run]
  {
  }

  lemma CommitKeepsOrder(cfg: Settings, s: Registry, r: RunId, e: Ending, max: nat)
    requires AllOrdered(cfg, s) && Ordered(cfg.of(r), e.run)
    ensures AllOrdered(cfg, CommitSpec(s, r, e, max))
  {
    CommitChangesOneRun(s, r, e, max);
  }

  lemma RetryCommitKeepsOrder(cfg: Settings, s: Registry, r: RunId, t: Retrial, env: Env, max: nat)
    requires AllSane(cfg) && AllOrdered(cfg, s)
    requires (r in s.runs ==> RunInvariant(s, r)) && !RetryGoesBack(s, Act.Retry(r, t, env))
    ensures AllOrdered(cfg, RetrySpec(cfg, max, s, r, t, env))
  {
    var u := if r in s.terminal then ResurrectSpec(s, r) else s;
    if r in s.runs && s.runs[r].status == Failed && !t.overBudget && RetryProceeds(s.runs[r], t) {
      RetryKeepsOrder(cfg.of(r), s.runs[r], t, env);
      CommitKeepsOrder(cfg, u, r, RetryRun(cfg.of(r), s.runs[r], t, env), max);
    }
  }

  lemma StepCommitKeepsOrder(cfg: Settings, s: Registry, r: RunId, i: nat, env: Env, max: nat)
    requires AllSane(cfg) && AllOrdered(cfg, s) && r in s.runs && RunInvariant(s, r) && i < |s.runs[r].loops|
    ensures AllOrdered(cfg, CommitSpec(s, r, Advance(cfg.of(r), s.runs[r], r in s.active, Known(s, r), i, env), max))
  {
    AdvanceKeepsOrder(cfg.of(r), s.runs[r], r in s.active, Known(s, r), env);
    CommitKeepsOrder(cfg, s, r, Advance(cfg.of(r), s.runs[r], r in s.active, Known(s, r), i, env), max);
  }

  lemma InterruptionsCommitKeepsOrder(cfg: Settings, s: Registry, r: RunId, max: nat)
    requires AllOrdered(cfg, s) && r in s.runs
    ensures AllOrdered(cfg, CommitSpec(s, r, DeadlineFires(s.runs[r], r in s.active, Known(s, r)), max))
    ensures AllOrdered(cfg, s.(runs := s.runs[r := RequestCancel(s.runs[r])], cancels := s.cancels + multiset{r}))
    ensures AllOrdered(cfg, CommitSpec(s.(cancels := s.cancels - multiset{r}), r,
                                       Lifecycle.FinishCancel(s.runs[r], r in s.active, Known(s, r)), max))
  {
    var run, active, known := s.runs[r], r in s.active, Known(s, r);
    InterruptionsKeepOrder(cfg.of(r), run, active, known);
    CommitKeepsOrder(cfg, s, r, DeadlineFires(run, active, known), max);
    CommitKeepsOrder(cfg, s.(cancels := s.cancels - multiset{r}), r, Lifecycle.FinishCancel(run, active, known), max);
  }

  lemma StartCommitKeepsOrder(cfg: Settings, s: Registry, r: RunId, env: Env, max: nat)
    requires AllOrdered(cfg, s) && r in s.runs && RunInvariant(s, r) && StartAllowed(s.runs[r], true, true, false)
    ensures AllOrdered(cfg, CommitSpec(s, r, StartRun(cfg.of(r), s.runs[r], env), max))
  {
    StartKeepsOrder(cfg.of(r), s.runs[r], env);
    CommitKeepsOrder(cfg, s, r, StartRun(cfg.of(r), s.runs[r], env), max);
  }

  lemma PerformKeepsOrder(cfg: Settings, s: Registry, a: Act, max: nat)
    requires AllSane(cfg) && AllOrdered(cfg, s) && !RetryGoesBack(s, a)
    requires a.id in s.runs ==> RunInvariant(s, a.id)
    ensures AllOrdered(cfg, Perform(cfg, max, s, a))
  {
    var r := a.id;
    match a
    case Create(_) =>
    case Insert(_) =>
    case Start(_, env) =>
      if r in s.runs && StartAllowed(s.runs[r], r in s.active, r in s.control, r in s.terminal) {
        StartCommitKeepsOrder(cfg, s, r, env, max);
      }
    case Step(_, i, env) =>
      if r in s.runs && i < |s.runs[r].loops| {
        StepCommitKeepsOrder(cfg, s, r, i, env, max);
      }
    case Retry(_, t, env) =>
      RetryCommitKeepsOrder(cfg, s, r, t, env, max);
    case _ =>
      if r in s.runs {
        InterruptionsCommitKeepsOrder(cfg, s, r, max);
      }
  }

  lemma NextKeepsOrder(cfg: Settings, max: nat, states: seq<Registry>, acts: seq<Act>, k: nat)
    requires AllSane(cfg) && Behaviour(cfg, max, states, acts) && k < |acts|
    requires AllOrdered(cfg, states[k]) && !RetryGoesBack(states[k], acts[k])
    ensures AllOrdered(cfg, states[k + 1])
  {
    ReachableSatisfiesInvariant(cfg, max, states, acts, k);
    assert StepAt(cfg, max, states, acts, k);
    PerformKeepsOrder(cfg, states[k], acts[k], max);
  }

  lemma {:induction false} ReachableIsOrdered(cfg: Settings, max: nat, states: seq<Registry>, acts: seq<Act>, k: nat)
    requires AllSane(cfg) && Behaviour(cfg, max, states, acts) && k < |states|
    requires forall i: nat :: i < k ==> !RetryGoesBack(states[i], acts[i])
    ensures AllOrdered(cfg, states[k])
  {
    if k > 0 {
      ReachableIsOrdered(cfg, max, states, acts, k - 1);
      NextKeepsOrder(cfg, max, states, acts, k - 1);
    }
  }

  /** Recovery never repeats finished work: over a run's whole life its
      completed step numbers strictly increase, whatever its retries name, lose
      or are refused, as long as none goes back. */
  lemma {:induction false} FinishedStepsNeverRepeat(cfg: Settings, max: nat, states: seq<Registry>, acts: seq<Act>, k: nat, r: RunId)
    requires AllSane(cfg) && Behaviour(cfg, max, states, acts) && k < |states| && r in states[k].runs
    requires forall i: nat :: i < k ==> !RetryGoesBack(states[i], acts[i])
    ensures var done := states[k].runs[r].audit.done; forall i, j :: 0 <= i < j < |done| ==> done[i] < done[j]
  {
    ReachableIsOrdered(cfg, max, states, acts, k);
    var done := states[k].runs[r].audit.done;
    assert Ordered(cfg.of(r), states[k].runs[r]);
    forall i, j | 0 <= i < j < |done|
      ensures done[i] < done[j]
    {
      IncreasingPairs(done, i, j);
    }
  }

  /** A retry that names no checkpoint and either finds the newest completed one
      or has a recorded side effect. */
  ghost predicate RetryKeepsItsPlace(s: Registry, a: Act) {
    a.Retry? && a.id in s.runs ==> KeepsItsPlace(s.runs[a.id], a.trial)
  }

  lemma {:induction false} KeptPlacesNeverGoBack(cfg: Settings, max: nat, states: seq<Registry>, acts: seq<Act>, k: nat)
    requires AllSane(cfg) && Behaviour(cfg, max, states, acts) && k < |states|
    requires forall i: nat :: i < k ==> RetryKeepsItsPlace(states[i], acts[i])
    ensures forall i: nat :: i < k ==> !RetryGoesBack(states[i], acts[i])
  {
    if k > 0 {
      KeptPlacesNeverGoBack(cfg, max, states, acts, k - 1);
      ReachableIsOrdered(cfg, max, states, acts, k - 1);
      var s, a := states[k - 1], acts[k - 1];
      assert RetryKeepsItsPlace(s, a);
      if a.Retry? && a.id in s.runs {
        assert Ordered(cfg.of(a.id), s.runs[a.id]);
        KeepingItsPlace(s.runs[a.id], cfg.of(a.id), a.trial);
      }
    }
  }

  /** In particular when every retry keeps its place. */
  lemma {:induction false} PlainRetriesNeverRepeat(cfg: Settings, max: nat, states: seq<Registry>, acts: seq<Act>, k: nat, r: RunId)
    requires AllSane(cfg) && Behaviour(cfg, max, states, acts) && k < |states| && r in states[k].runs
    requires forall i: nat :: i < k ==> RetryKeepsItsPlace(states[i], acts[i])
    ensures var done := states[k].runs[r].audit.done; forall i, j :: 0 <= i < j < |done| ==> done[i] < done[j]
  {
    KeptPlacesNeverGoBack(cfg, max, states, acts, k);
    FinishedStepsNeverRepeat(cfg, max, states, acts, k, r);
  }

  // ---------- the step budget ----------

  ghost predicate AllWithinBudget(cfg: Settings, s: Registry) {
    forall r :: r in s.runs ==> WithinBudget(cfg.of(r), s.runs[r])
  }

  lemma CommitStaysWithinBudget(cfg: Settings, s: Registry, r: RunId, e: Ending, max: nat)
    requires AllWithinBudget(cfg, s) && WithinBudget(cfg.of(r), e.run)
    ensures AllWithinBudget(cfg, CommitSpec(s, r, e, max))
  {
    CommitChangesOneRun(s, r, e, max);
  }

  lemma RetryStaysWithinBudget(cfg: Settings, s: Registry, r: RunId, t: Retrial, env: Env, max: nat)
    requires AllWithinBudget(cfg, s) && (r in s.runs ==> RunInvariant(s, r))
    ensures AllWithinBudget(cfg, RetrySpec(cfg, max, s, r, t, env))
  {
    var u := if r in s.terminal then ResurrectSpec(s, r) else s;
    if r in s.runs && s.runs[r].status == Failed && RetryProceeds(s.runs[r], t) {
      var reopened := Reopen(s.runs[r], t);
      NewLoopStaysWithinBudget(cfg.of(r), reopened, reopened.hasModel, if reopened.hasModel then RetryCursor(s.runs[r], t) else 0, env);
      CommitStaysWithinBudget(cfg, u, r, RetryRun(cfg.of(r), s.runs[r], t, env), max);
    }
  }

  lemma InterruptionsCommitWithinBudget(cfg: Settings, s: Registry, r: RunId, max: nat)
    requires AllWithinBudget(cfg, s) && r in s.runs
    ensures AllWithinBudget(cfg, CommitSpec(s, r, DeadlineFires(s.runs[r], r in s.active, Known(s, r)), max))
    ensures AllWithinBudget(cfg, s.(runs := s.runs[r := RequestCancel(s.runs[r])], cancels := s.cancels + multiset{r}))
    ensures AllWithinBudget(cfg, CommitSpec(s.(cancels := s.cancels - multiset{r}), r,
                                            Lifecycle.FinishCancel(s.runs[r], r in s.active, Known(s, r)), max))
  {
    var run, active, known := s.runs[r], r in s.active, Known(s, r);
    InterruptionsStayWithinBudget(cfg.of(r), run, active, known);
    CommitStaysWithinBudget(cfg, s, r, DeadlineFires(run, active, known), max);
    CommitStaysWithinBudget(cfg, s.(cancels := s.cancels - multiset{r}), r, Lifecycle.FinishCancel(run, active, known), max);
  }

  lemma PerformStaysWithinBudget(cfg: Settings, s: Registry, a: Act, max: nat)
    requires AllWithinBudget(cfg, s) && (a.id in s.runs ==> RunInvariant(s, a.id))
    ensures AllWithinBudget(cfg, Perform(cfg, max, s, a))
  {
    var r := a.id;
    match a
    case Create(_) =>
    case Insert(_) =>
    case Start(_, env) =>
      if r in s.runs && StartAllowed(s.runs[r], r in s.active, r in s.control, r in s.terminal) {
        NewLoopStaysWithinBudget(cfg.of(r), s.runs[r].(running := true, abort := false, deadline := true), false, 0, env);
        CommitStaysWithinBudget(cfg, s, r, StartRun(cfg.of(r), s.runs[r], env), max);
      }
    case Step(_, i, env) =>
      if r in s.runs && i < |s.runs[r].loops| {
        AdvanceStaysWithinBudget(cfg.of(r), s.runs[r], r in s.active, Known(s, r), env);
        CommitStaysWithinBudget(cfg, s, r, Advance(cfg.of(r), s.runs[r], r in s.active, Known(s, r), i, env), max);
      }
    case Retry(_, t, env) => RetryStaysWithinBudget(cfg, s, r, t, env, max);
    case _ =>
      if r in s.runs {
        InterruptionsCommitWithinBudget(cfg, s, r, max);
      }
  }

  lemma NextStaysWithinBudget(cfg: Settings, max: nat, states: seq<Registry>, acts: seq<Act>, k: nat)
    requires Behaviour(cfg, max, states, acts) && k < |acts| && AllWithinBudget(cfg, states[k])
    ensures AllWithinBudget(cfg, states[k + 1])
  {
    ReachableSatisfiesInvariant(cfg, max, states, acts, k);
    assert StepAt(cfg, max, states, acts, k);
    PerformStaysWithinBudget(cfg, states[k], acts[k], max);
  }

  lemma {:induction false} ReachableIsWithinBudget(cfg: Settings, max: nat, states: seq<Registry>, acts: seq<Act>, k: nat)
    requires Behaviour(cfg, max, states, acts) && k < |states|
    ensures AllWithinBudget(cfg, states[k])
  {
    if k > 0 {
      ReachableIsWithinBudget(cfg, max, states, acts, k - 1);
      NextStaysWithinBudget(cfg, max, states, acts, k - 1);
    }
  }

  /** In every behaviour, whatever its retries do, no step outside the step
      budget is ever completed or worked on. */
  lemma {:induction false} StepsStayWithinBudget(cfg: Settings, max: nat, states: seq<Registry>, acts: seq<Act>, k: nat, r: RunId)
    requires Behaviour(cfg, max, states, acts) && k < |states| && r in states[k].runs
    ensures var run := states[k].runs[r];
            && (forall i :: 0 <= i < |run.audit.done| ==> 0 < run.audit.done[i] <= cfg.of(r).maxSteps)
            && (run.loops != [] && MidStep(run.loops[0].pc) ==> 0 < run.loops[0].steps <= cfg.of(r).maxSteps)
  {
    ReachableIsWithinBudget(cfg, max, states, acts, k);
    var run := states[k].runs[r];
    assert WithinBudget(cfg.of(r), run);
    assert forall i :: 0 <= i < |run.audit.done| ==> run.audit.done[i] in run.audit.done;
  }

  // ---------- final states ----------

  lemma StepStaysEnded(cfg: Config, s: Registry, r: RunId, i: nat, env: Env, max: nat)
    requires Invariant(s, max) && r in s.runs && Ended(s.runs[r].status) && i < |s.runs[r].loops|
    ensures Advance(cfg, s.runs[r], r in s.active, Known(s, r), i, env).run.status == s.runs[r].status
  {
    assert RunInvariant(s, r);
    assert i == 0;
    StepFits(cfg, s, r, env, max);
  }

  lemma IdleOnceEnded(cfg: Settings, s: Registry, a: Act, max: nat)
    requires a.id in s.runs && a.id !in s.pending && Ended(s.runs[a.id].status) && !s.runs[a.id].deadline
    requires a.Create? || a.Insert? || a.Start? || a.Deadline? || a.Cancel?
    ensures Perform(cfg, max, s, a) == s
  {
  }

  lemma RetryIdleOnceEnded(cfg: Settings, s: Registry, r: RunId, t: Retrial, env: Env, max: nat)
    requires r in s.runs && Ended(s.runs[r].status) && (r in s.terminal ==> s.terminal[r] == s.runs[r].status)
    ensures RetrySpec(cfg, max, s, r, t, env) == s
  {
  }

  ghost predicate KeepsStatus(s: Registry, t: Registry, r: RunId)
    requires r in s.runs
  {
    r in t.runs && t.runs[r].status == s.runs[r].status
  }

  lemma CommittedStatus(s: Registry, r: RunId, e: Ending, max: nat)
    requires r in s.runs && e.run.status == s.runs[r].status
    ensures KeepsStatus(s, CommitSpec(s, r, e, max), r)
  {
    CommitChangesOneRun(s, r, e, max);
  }

  lemma StepKeepsEnded(cfg: Settings, s: Registry, r: RunId, i: nat, env: Env, max: nat)
    requires Invariant(s, max) && r in s.runs && Ended(s.runs[r].status)
    ensures KeepsStatus(s, Perform(cfg, max, s, Step(r, i, env)), r)
  {
    if i < |s.runs[r].loops| {
      StepStaysEnded(cfg.of(r), s, r, i, env, max);
      CommittedStatus(s, r, Advance(cfg.of(r), s.runs[r], r in s.active, Known(s, r), i, env), max);
    }
  }

  lemma FinishCancelKeepsEnded(cfg: Settings, s: Registry, r: RunId, max: nat)
    requires r in s.runs && Ended(s.runs[r].status)
    ensures KeepsStatus(s, Perform(cfg, max, s, FinishCancel(r)), r)
  {
    CommitChangesOneRun(s.(cancels := s.cancels - multiset{r}), r, Lifecycle.FinishCancel(s.runs[r], r in s.active, Known(s, r)), max);
  }

  /** COMPLETED and CANCELLED are final: no action changes them. */
  lemma EndedStaysEnded(cfg: Settings, s: Registry, a: Act, max: nat, r: RunId)
    requires Invariant(s, max) && max > 0 && r in s.runs && Ended(s.runs[r].status)
    ensures KeepsStatus(s, Perform(cfg, max, s, a), r)
  {
    if a.id != r {
      OthersUntouched(cfg, s, a, max, r);
    } else if a.Step? {
      StepKeepsEnded(cfg, s, r, a.loop, a.env, max);
    } else if a.FinishCancel? {
      FinishCancelKeepsEnded(cfg, s, r, max);
    } else if a.Retry? {
      RetryIdleOnceEnded(cfg, s, r, a.trial, a.env, max);
    } else {
      assert !s.runs[r].deadline by {
        assert RunInvariant(s, r);
      }
      IdleOnceEnded(cfg, s, a, max);
    }
  }

  lemma OthersUntouched(cfg: Settings, s: Registry, a: Act, max: nat, r: RunId)
    requires r in s.runs && a.id != r
    ensures var t := Perform(cfg, max, s, a); r in t.runs && t.runs[r] == s.runs[r]
  {
    var id := a.id;
    match a
    case Start(_, env) =>
      if id in s.runs {
        CommitChangesOneRun(s, id, StartRun(cfg.of(id), s.runs[id], env), max);
      }
    case Step(_, i, env) =>
      if id in s.runs && i < |s.runs[id].loops| {
        CommitChangesOneRun(s, id, Advance(cfg.of(id), s.runs[id], id in s.active, Known(s, id), i, env), max);
      }
    case Deadline(_) =>
      if id in s.runs {
        CommitChangesOneRun(s, id, DeadlineFires(s.runs[id], id in s.active, Known(s, id)), max);
      }
    case FinishCancel(_) =>
      if id in s.runs {
        CommitChangesOneRun(s.(cancels := s.cancels - multiset{id}), id, Lifecycle.FinishCancel(s.runs[id], id in s.active, Known(s, id)), max);
      }
    case Retry(_, t, env) => RetryTouchesOneRun(cfg, s, id, t, env, max, r);
    case _ =>
  }

  lemma RetryTouchesOneRun(cfg: Settings, s: Registry, id: RunId, t: Retrial, env: Env, max: nat, r: RunId)
    requires r in s.runs && r != id
    ensures var u := RetrySpec(cfg, max, s, id, t, env); r in u.runs && u.runs[r] == s.runs[r]
  {
    var u, v := if id in s.terminal then ResurrectSpec(s, id) else s, RetrySpec(cfg, max, s, id, t, env);
    if v != s && v != u {
      var e := RetryRun(cfg.of(id), s.runs[id], t, env);
      assert v == CommitSpec(u, id, e, max);
      CommitChangesOneRun(u, id, e, max);
    }
  }

  lemma NextKeepsEnded(cfg: Settings, max: nat, states: seq<Registry>, acts: seq<Act>, k: nat, r: RunId)
    requires Behaviour(cfg, max, states, acts) && k < |acts|
    requires r in states[k].runs && Ended(states[k].runs[r].status)
    ensures r in states[k + 1].runs && states[k + 1].runs[r].status == states[k].runs[r].status
  {
    ReachableSatisfiesInvariant(cfg, max, states, acts, k);
    assert StepAt(cfg, max, states, acts, k);
    EndedStaysEnded(cfg, states[k], acts[k], max, r);
  }

  /** Once COMPLETED or CANCELLED, always so. */
  lemma {:induction false} EndedForever(cfg: Settings, max: nat, states: seq<Registry>, acts: seq<Act>, k: nat, l: nat, r: RunId)
    requires Behaviour(cfg, max, states, acts) && k <= l < |states|
    requires r in states[k].runs && Ended(states[k].runs[r].status)
    ensures r in states[l].runs && states[l].runs[r].status == states[k].runs[r].status
    decreases l
  {
    if k < l {
      EndedForever(cfg, max, states, acts, k, l - 1, r);
      NextKeepsEnded(cfg, max, states, acts, l - 1, r);
    }
  }

  /** A timer that fires ends its run CANCELLED. */
  lemma DeadlineEndsRun(cfg: Settings, s: Registry, max: nat, r: RunId)
    requires Invariant(s, max) && r in s.runs && s.runs[r].deadline
    ensures var t := Perform(cfg, max, s, Deadline(r)); r in t.runs && t.runs[r].status == Cancelled
  {
    var run, active, known := s.runs[r], r in s.active, Known(s, r);
    assert DeadlineFires(run, active, known).run.status == Cancelled by {
      assert RunInvariant(s, r);
      InterruptionsKeepSound(run, active, known);
    }
    CommitChangesOneRun(s, r, DeadlineFires(run, active, known), max);
  }

  lemma CancellationEnds(run: Run, active: bool, known: bool)
    requires Placed(run, active, known) && run.machine == run.status
    ensures Terminal(Lifecycle.FinishCancel(run, active, known).run.status)
  {
  }

  /** An accepted cancellation has always ended its run once its wait is over. */
  lemma CancelEndsRun(cfg: Settings, s: Registry, max: nat, r: RunId)
    requires Invariant(s, max) && r in s.runs && r in s.cancels
    ensures var t := Perform(cfg, max, s, FinishCancel(r)); r in t.runs && Terminal(t.runs[r].status)
  {
    var run, active, known := s.runs[r], r in s.active, Known(s, r);
    assert Terminal(Lifecycle.FinishCancel(run, active, known).run.status) by {
      assert RunInvariant(s, r);
      CancellationEnds(run, active, known);
    }
    CommitChangesOneRun(s.(cancels := s.cancels - multiset{r}), r, Lifecycle.FinishCancel(run, active, known), max);
  }

  /** A live run is registered as live and has one loop, which ends it as said there. */
  lemma LiveLoopEnds(cfg: Settings, s: Registry, max: nat, r: RunId, i: nat, env: Env)
    requires Invariant(s, max) && r in s.runs && i < |s.runs[r].loops| && !Terminal(s.runs[r].status)
    ensures r in s.active && Known(s, r)
    ensures EndsAs(cfg.of(r), s.runs[r], s.runs[r].loops[i], env, Advance(cfg.of(r), s.runs[r], true, true, i, env).run.status)
  {
    assert RunInvariant(s, r);
    assert i == 0;
    LoopEnds(cfg.of(r), s.runs[r], env);
  }

  /** The guards let through exactly the FAILED runs still held, within their budget,
      whose recovery proceeds: such a run is never running. */
  lemma LetThroughIff(s: Registry, max: nat, r: RunId, t: Retrial)
    requires Invariant(s, max)
    ensures Guarded(s, r, t) <==> LetThrough(s, r, t)
  {
    assert r in s.runs ==> RunInvariant(s, r);
  }

  // ---------- the object that holds the registry ----------

  datatype StartResult = Accepted | TerminalError | NotFound | Busy

  class Orchestrator {
    const cfg: Settings
    const maxTerminalRetained: nat
    var runs: map<RunId, Run>
    var activeRuns: set<RunId>
    var runControl: set<RunId>
    var terminalRuns: map<RunId, Status>
    var terminalOrder: seq<RunId>
    var cancels: multiset<RunId>
    var pendingCreations: set<RunId>

    function State(): Registry
      reads this
    {
      Registry(runs, activeRuns, runControl, terminalRuns, terminalOrder, cancels, pendingCreations)
    }

    ghost predicate Valid()
      reads this
    {
      maxTerminalRetained > 0 && Invariant(State(), maxTerminalRetained)
    }

    constructor (cfg: Settings, maxTerminalRetained: nat)
      requires maxTerminalRetained > 0
      ensures Valid() && State() == EMPTY
      ensures this.cfg == cfg && this.maxTerminalRetained == maxTerminalRetained
    {
      this.cfg, this.maxTerminalRetained := cfg, maxTerminalRetained;
      runs, activeRuns, runControl, terminalRuns, terminalOrder := map[], {}, {}, map[], [];
      cancels, pendingCreations := multiset{}, {};
    }

    /** Moves a run from the live maps to the bounded history. */
    method RetireRun(runId: RunId)
      modifies this
      ensures State() == RetireSpec(old(State()), runId, maxTerminalRetained)
      ensures old(Valid()) && runId in old(activeRuns) ==>
                var order := old(terminalOrder) + [runId];
                && terminalOrder == (if |order| <= maxTerminalRetained then order else order[|order| - maxTerminalRetained..])
                && activeRuns == old(activeRuns) - {runId} && runControl == old(runControl) - {runId} && runs == old(runs)
                && terminalRuns == Restrict(old(terminalRuns)[runId := old(runs)[runId].status], terminalOrder)
    {
      ghost var s := State();
      if Valid() && runId in activeRuns {
        RetiredIsNewest(s, runId, maxTerminalRetained);
      }
      if runId !in activeRuns || runId !in runControl || runId !in runs {
        return;
      }
      activeRuns := activeRuns - {runId};
      runControl := runControl - {runId};
      terminalRuns := terminalRuns[runId := runs[runId].status];
      terminalOrder := terminalOrder + [runId];
      ghost var order, terminal := terminalOrder, terminalRuns;
      while |terminalOrder| > maxTerminalRetained
        invariant Evict(terminalOrder, terminalRuns, runId, maxTerminalRetained) == Evict(order, terminal, runId, maxTerminalRetained)
        invariant runs == old(runs) && activeRuns == old(activeRuns) - {runId} && runControl == old(runControl) - {runId}
        invariant cancels == old(cancels) && pendingCreations == old(pendingCreations)
        decreases |terminalOrder|
      {
        var oldest := terminalOrder[0];
        terminalOrder := terminalOrder[1..];
        if oldest in terminalRuns && oldest != runId {
          terminalRuns := terminalRuns - {oldest};
        }
      }
    }

    method Commit(runId: RunId, e: Ending)
      modifies this
      ensures State() == CommitSpec(old(State()), runId, e, maxTerminalRetained)
    {
      runs := runs[runId := e.run];
      if e.retired {
        RetireRun(runId);
      }
    }

    /** A creation up to its await, under a newly generated id; false means too
        many runs are live. */
    method CreateRun(runId: RunId) returns (accepted: bool)
      requires Valid() && runId !in runs && runId !in pendingCreations
      modifies this
      ensures Valid() && State() == Perform(cfg, maxTerminalRetained, old(State()), Create(runId))
      ensures accepted <==> |old(activeRuns)| < cfg.maxConcurrent
      ensures runId in pendingCreations <==> accepted
    {
      PerformKeepsInvariant(cfg, State(), Create(runId), maxTerminalRetained);
      accepted := |activeRuns| < cfg.maxConcurrent;
      if accepted {
        pendingCreations := pendingCreations + {runId};
      }
    }

    /** The creation after its await; the bound is not looked at again. */
    method CreationContinues(runId: RunId)
      requires Valid() && runId in pendingCreations
      modifies this
      ensures Valid() && State() == Perform(cfg, maxTerminalRetained, old(State()), Insert(runId))
      ensures runs == old(runs)[runId := NewRun] && activeRuns == old(activeRuns) + {runId} && runId !in old(activeRuns)
    {
      PerformKeepsInvariant(cfg, State(), Insert(runId), maxTerminalRetained);
      runs := runs[runId := NewRun];
      activeRuns := activeRuns + {runId};
      runControl := runControl + {runId};
      pendingCreations := pendingCreations - {runId};
    }

    method StartRun(runId: RunId, env: Env) returns (result: StartResult)
      requires Valid()
      modifies this
      ensures Valid() && State() == Perform(cfg, maxTerminalRetained, old(State()), Start(runId, env))
      ensures result.Accepted? <==> runId in old(runs) && StartAllowed(old(runs)[runId], runId in old(activeRuns), runId in old(runControl), runId in old(terminalRuns))
      ensures result.Busy? ==> runId in old(runs) && old(runs)[runId].running
      ensures !result.Accepted? ==> State() == old(State())
    {
      PerformKeepsInvariant(cfg, State(), Start(runId, env), maxTerminalRetained);
      if runId in terminalRuns {
        return TerminalError;
      }
      if runId !in activeRuns || runId !in runControl || runId !in runs {
        return NotFound;
      }
      if Terminal(runs[runId].status) {
        return TerminalError;
      }
      if runs[runId].running {
        return Busy;
      }
      Commit(runId, Lifecycle.StartRun(cfg.of(runId), runs[runId], env));
      result := Accepted;
    }

    method ResumeSuspended(runId: RunId, loop: nat, env: Env)
      requires Valid()
      requires runId in runs && loop < |runs[runId].loops|
      modifies this
      ensures Valid() && State() == Perform(cfg, maxTerminalRetained, old(State()), Step(runId, loop, env))
      ensures runId in runs
      ensures var before := old(runs)[runId];
              !Terminal(before.status) ==> EndsAs(cfg.of(runId), before, before.loops[loop], env, runs[runId].status)
    {
      ghost var s := State();
      var known := runId in runControl || runId in terminalRuns;
      var e := Advance(cfg.of(runId), runs[runId], runId in activeRuns, known, loop, env);
      Commit(runId, e);
      assert State() == Perform(cfg, maxTerminalRetained, s, Step(runId, loop, env));
      assert runs[runId] == e.run by {
        CommitChangesOneRun(s, runId, e, maxTerminalRetained);
      }
      PerformKeepsInvariant(cfg, s, Step(runId, loop, env), maxTerminalRetained);
      if !Terminal(s.runs[runId].status) {
        LiveLoopEnds(cfg, s, maxTerminalRetained, runId, loop, env);
      }
    }

    method DeadlineElapsed(runId: RunId)
      requires Valid()
      requires runId in runs && runs[runId].deadline
      modifies this
      ensures Valid() && State() == Perform(cfg, maxTerminalRetained, old(State()), Deadline(runId))
      ensures runId in runs && runs[runId].status == Cancelled
    {
      ghost var s := State();
      var known := runId in runControl || runId in terminalRuns;
      Commit(runId, DeadlineFires(runs[runId], runId in activeRuns, known));
      assert State() == Perform(cfg, maxTerminalRetained, s, Deadline(runId));
      PerformKeepsInvariant(cfg, s, Deadline(runId), maxTerminalRetained);
      DeadlineEndsRun(cfg, s, maxTerminalRetained, runId);
    }

    /** A cancellation up to its wait; false means there is nothing to cancel. */
    method CancelRun(runId: RunId) returns (accepted: bool)
      requires Valid()
      modifies this
      ensures Valid() && State() == Perform(cfg, maxTerminalRetained, old(State()), Cancel(runId))
      ensures accepted <==> runId in old(runs) && !Terminal(old(runs)[runId].status)
      ensures runs == if accepted then old(runs)[runId := old(runs)[runId].(abort := true, deadline := false)] else old(runs)
    {
      PerformKeepsInvariant(cfg, State(), Cancel(runId), maxTerminalRetained);
      assert runId in runs ==> RunInvariant(State(), runId);
      if runId in terminalRuns || runId !in activeRuns || runId !in runControl || runId !in runs || Terminal(runs[runId].status) {
        return false;
      }
      runs := runs[runId := RequestCancel(runs[runId])];
      cancels := cancels + multiset{runId};
      accepted := true;
    }

    method CancelWaitOver(runId: RunId)
      requires Valid()
      requires runId in runs && runId in cancels
      modifies this
      ensures Valid() && State() == Perform(cfg, maxTerminalRetained, old(State()), FinishCancel(runId))
      ensures runId in runs && Terminal(runs[runId].status) && !runs[runId].running
    {
      ghost var s := State();
      var known := runId in runControl || runId in terminalRuns;
      var e := Lifecycle.FinishCancel(runs[runId], runId in activeRuns, known);
      cancels := cancels - multiset{runId};
      Commit(runId, e);
      assert State() == Perform(cfg, maxTerminalRetained, s, FinishCancel(runId));
      PerformKeepsInvariant(cfg, s, FinishCancel(runId), maxTerminalRetained);
      CancelEndsRun(cfg, s, maxTerminalRetained, runId);
    }

    method Resurrect(runId: RunId)
      modifies this
      ensures State() == ResurrectSpec(old(State()), runId)
    {
      terminalRuns := terminalRuns - {runId};
      terminalOrder := Without(terminalOrder, runId);
      activeRuns := activeRuns + {runId};
      runControl := runControl + {runId};
    }

    method TryRetry(runId: RunId, trial: Retrial, env: Env) returns (accepted: bool)
      modifies this
      ensures State() == RetrySpec(cfg, maxTerminalRetained, old(State()), runId, trial, env)
      ensures accepted <==> Guarded(old(State()), runId, trial)
      ensures !accepted ==> runs == old(runs)
    {
      if runId in terminalRuns {
        if terminalRuns[runId] != Failed || trial.overBudget {
          return false;
        }
        Resurrect(runId);
      }
      if runId !in activeRuns || runId !in runControl || runId !in runs || runs[runId].status != Failed || runs[runId].running || trial.overBudget {
        return false;
      }
      if !RetryProceeds(runs[runId], trial) {
        return false;
      }
      Commit(runId, Lifecycle.RetryRun(cfg.of(runId), runs[runId], trial, env));
      accepted := true;
    }

    /** A retired FAILED run is made live again before the guards are checked;
        a refusal leaves it so, but changes no run. */
    method RetryRun(runId: RunId, trial: Retrial, env: Env) returns (accepted: bool)
      requires Valid()
      modifies this
      ensures Valid() && State() == Perform(cfg, maxTerminalRetained, old(State()), Act.Retry(runId, trial, env))
      ensures accepted <==> LetThrough(old(State()), runId, trial)
      ensures !accepted ==> runs == old(runs)
    {
      ghost var s := State();
      LetThroughIff(s, maxTerminalRetained, runId, trial);
      accepted := TryRetry(runId, trial, env);
      PerformKeepsInvariant(cfg, s, Act.Retry(runId, trial, env), maxTerminalRetained);
    }
  }
}
