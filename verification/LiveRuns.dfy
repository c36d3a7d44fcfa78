// The bound on live runs: what takes their number over it, and how far.
module LiveRuns {
  import opened RunStates
  import opened Checkpoints
  import opened Lifecycle
  import opened Orchestrator

  /** The retried run has a model, no step left to run and an answer already:
      its new loop completes it before the first await. */
  predicate EndsAtOnce(cfg: Config, run: Run, t: Retrial, env: Env) {
    && RetryProceeds(run, t) && Reopen(run, t).hasModel && RetryCursor(run, t) >= cfg.maxSteps
    && !env.exhausted && env.answered
  }

  lemma RetiredAtOnceIff(cfg: Config, run: Run, t: Retrial, env: Env)
    requires run.machine == run.status == Failed && RetryProceeds(run, t)
    ensures RetryRun(cfg, run, t, env).retired <==> EndsAtOnce(cfg, run, t, env)
  {
    var r := Reopen(run, t);
    assert r.status == r.machine == Retrying && !r.abort;
    var startStep := if r.hasModel then RetryCursor(run, t) else 0;
    NewLoopRetiredIff(cfg, r, startStep, env);
  }

  lemma NewLoopRetiredIff(cfg: Config, run: Run, startStep: nat, env: Env)
    requires run.machine == run.status == Retrying && !run.abort
    ensures WithNewLoop(cfg, run, run.hasModel, startStep, env).retired <==>
              run.hasModel && startStep >= cfg.maxSteps && !env.exhausted && env.answered
  {
  }

  /** A creation that passed the check earlier inserts its run, or a retired
      FAILED run within its budget is retried and does not end at once. */
  predicate Adds(cfg: Settings, s: Registry, a: Act) {
    match a
    case Insert(r) => r in s.pending
    case Retry(r, t, env) =>
      r in s.runs && r in s.terminal && s.terminal[r] == Failed && !t.overBudget && !EndsAtOnce(cfg.of(r), s.runs[r], t, env)
    case _ => false
  }

  /** The action adds a run while the bound is reached. */
  predicate Overfills(cfg: Settings, s: Registry, a: Act) {
    |s.active| == cfg.maxConcurrent && Adds(cfg, s, a)
  }

  /** The action adds one live run, or none. */
  ghost predicate GrowsIffAdds(cfg: Settings, s: Registry, a: Act, max: nat) {
    var n := |Perform(cfg, max, s, a).active|;
    if Adds(cfg, s, a) then n == |s.active| + 1 else n <= |s.active|
  }

  /** What one run's stretch does to the live runs. */
  lemma CommitActive(s: Registry, r: RunId, e: Ending, max: nat)
    ensures var t := CommitSpec(s, r, e, max);
            t.active == (if e.retired && r in s.control then s.active - {r} else s.active) && |t.active| <= |s.active|
  {
    if r in s.active {
      assert s.active == (s.active - {r}) + {r};
    }
  }

  lemma RevivalGrows(cfg: Settings, s: Registry, r: RunId, t: Retrial, env: Env, max: nat)
    requires Invariant(s, max) && r in s.terminal && s.terminal[r] == Failed && !t.overBudget
    ensures r in s.runs && r !in s.active
    ensures RetrySpec(cfg, max, s, r, t, env).active == if EndsAtOnce(cfg.of(r), s.runs[r], t, env) then s.active else s.active + {r}
  {
    assert RunInvariant(s, r);
    var run := s.runs[r];
    assert (s.active + {r}) - {r} == s.active;
    if RetryProceeds(run, t) {
      RetiredAtOnceIff(cfg.of(r), run, t, env);
      CommitActive(ResurrectSpec(s, r), r, RetryRun(cfg.of(r), run, t, env), max);
    }
  }

  lemma RetryGrows(cfg: Settings, s: Registry, a: Act, max: nat)
    requires Invariant(s, max) && a.Retry?
    ensures GrowsIffAdds(cfg, s, a, max)
  {
    var r, t, env := a.id, a.trial, a.env;
    assert Perform(cfg, max, s, a) == RetrySpec(cfg, max, s, r, t, env);
    if r in s.terminal {
      if s.terminal[r] == Failed && !t.overBudget {
        RevivalGrows(cfg, s, r, t, env, max);
      }
    } else if r in s.runs && RetryProceeds(s.runs[r], t) {
      CommitActive(s, r, RetryRun(cfg.of(r), s.runs[r], t, env), max);
    }
  }

  lemma CreationGrows(cfg: Settings, s: Registry, a: Act, max: nat)
    requires Invariant(s, max) && (a.Create? || a.Insert?)
    ensures GrowsIffAdds(cfg, s, a, max)
  {
    if a.id in s.pending {
      assert a.id !in s.active;
    }
  }

  lemma StretchShrinks(cfg: Settings, s: Registry, a: Act, max: nat)
    requires a.Start? || a.Step? || a.Deadline? || a.Cancel? || a.FinishCancel?
    ensures GrowsIffAdds(cfg, s, a, max)
  {
    var r := a.id;
    match a
    case Start(_, env) =>
      if r in s.runs {
        CommitActive(s, r, StartRun(cfg.of(r), s.runs[r], env), max);
      }
    case Step(_, i, env) =>
      if r in s.runs && i < |s.runs[r].loops| {
        CommitActive(s, r, Advance(cfg.of(r), s.runs[r], r in s.active, Known(s, r), i, env), max);
      }
    case Deadline(_) =>
      if r in s.runs {
        CommitActive(s, r, DeadlineFires(s.runs[r], r in s.active, Known(s, r)), max);
      }
    case FinishCancel(_) =>
      if r in s.runs {
        CommitActive(s.(cancels := s.cancels - multiset{r}), r, Lifecycle.FinishCancel(s.runs[r], r in s.active, Known(s, r)), max);
      }
    case _ =>
  }

  /** An action on a registry within the bound stays within it exactly when it
      does not overfill the registry. */
  lemma LiveRunsBoundedIff(cfg: Settings, s: Registry, a: Act, max: nat)
    requires Invariant(s, max) && |s.active| <= cfg.maxConcurrent
    ensures |Perform(cfg, max, s, a).active| <= cfg.maxConcurrent <==> !Overfills(cfg, s, a)
  {
    assert GrowsIffAdds(cfg, s, a, max) by {
      if a.Retry? {
        RetryGrows(cfg, s, a, max);
      } else if a.Create? || a.Insert? {
        CreationGrows(cfg, s, a, max);
      } else {
        StretchShrinks(cfg, s, a, max);
      }
    }
  }

  ghost predicate BoundedAt(cfg: Settings, states: seq<Registry>, k: nat)
    requires k < |states|
  {
    |states[k].active| <= cfg.maxConcurrent
  }

  ghost predicate OverfillsAt(cfg: Settings, states: seq<Registry>, acts: seq<Act>, i: nat)
    requires i < |acts| && i < |states|
  {
    Overfills(cfg, states[i], acts[i])
  }

  lemma NextBoundedIff(cfg: Settings, max: nat, states: seq<Registry>, acts: seq<Act>, i: nat)
    requires Behaviour(cfg, max, states, acts) && i < |acts| && BoundedAt(cfg, states, i)
    ensures BoundedAt(cfg, states, i + 1) <==> !OverfillsAt(cfg, states, acts, i)
  {
    ReachableSatisfiesInvariant(cfg, max, states, acts, i);
    assert StepAt(cfg, max, states, acts, i);
    LiveRunsBoundedIff(cfg, states[i], acts[i], max);
  }

  lemma {:induction false} BoundedUpTo(cfg: Settings, max: nat, states: seq<Registry>, acts: seq<Act>, k: nat)
    requires Behaviour(cfg, max, states, acts) && k < |states|
    requires forall i: nat :: i < |acts| ==> !OverfillsAt(cfg, states, acts, i)
    ensures BoundedAt(cfg, states, k)
  {
    if k > 0 {
      BoundedUpTo(cfg, max, states, acts, k - 1);
      NextBoundedIff(cfg, max, states, acts, k - 1);
    }
  }

  /** In a whole behaviour the number of live runs stays within the bound exactly
      when no action overfills the registry. */
  lemma BehaviourBoundedIff(cfg: Settings, max: nat, states: seq<Registry>, acts: seq<Act>)
    requires Behaviour(cfg, max, states, acts)
    ensures (forall k: nat :: k < |states| ==> BoundedAt(cfg, states, k)) <==>
              forall i: nat :: i < |acts| ==> !OverfillsAt(cfg, states, acts, i)
  {
    if forall i: nat :: i < |acts| ==> !OverfillsAt(cfg, states, acts, i) {
      forall k: nat | k < |states|
        ensures BoundedAt(cfg, states, k)
      {
        BoundedUpTo(cfg, max, states, acts, k);
      }
    }
    if forall k: nat :: k < |states| ==> BoundedAt(cfg, states, k) {
      forall i: nat | i < |acts|
        ensures !OverfillsAt(cfg, states, acts, i)
      {
        assert BoundedAt(cfg, states, i) && BoundedAt(cfg, states, i + 1);
        NextBoundedIff(cfg, max, states, acts, i);
      }
    }
  }
}
