// Exactly which actions end a run, and how: over every reachable registry.
module Endings {
  import opened RunStates
  import opened Checkpoints
  import opened Lifecycle
  import opened LifecycleSafety
  import opened StepOrder
  import opened Outcomes
  import opened Orchestrator
  import opened LiveRuns

  /** The action resumes the loop of a run. */
  predicate Resumes(s: Registry, a: Act, r: RunId) {
    a.Step? && a.id == r && r in s.runs && a.loop < |s.runs[r].loops|
  }

  /** It resumes it after a final answer, or leaves the loop with an answer. */
  predicate Completing(cfg: Settings, s: Registry, a: Act, r: RunId) {
    && Resumes(s, a, r)
    && var run := s.runs[r];
       var loop := run.loops[a.loop];
       FinalAnswer(loop, a.env) || (LeavesLoop(cfg.of(r), run, loop, a.env) && HasAnswer(cfg.of(r), loop, a.env))
  }

  /** It settles a loop that has thrown, and no stop was asked for. */
  predicate Failing(s: Registry, a: Act, r: RunId) {
    Resumes(s, a, r) && s.runs[r].loops[a.loop].pc == AtSettle(true) && !s.runs[r].abort
  }

  /** It resumes a stopped loop that would go round again or has thrown, or it is
      the run's timer, or the end of a cancellation's wait. */
  predicate Cancelling(cfg: Settings, s: Registry, a: Act, r: RunId) {
    a.id == r && r in s.runs &&
    match a
    case Step(_, i, env) =>
      Resumes(s, a, r) && s.runs[r].abort && StopsOrGoesRound(cfg.of(r), s.runs[r].loops[i], env)
    case Deadline(_) => s.runs[r].deadline
    case FinishCancel(_) => r in s.cancels
    case _ => false
  }

  /** The action ends a live run exactly in these three ways. */
  ghost predicate EndsExactly(cfg: Settings, s: Registry, a: Act, max: nat, r: RunId)
    requires r in s.runs
  {
    var t := Perform(cfg, max, s, a);
    && r in t.runs
    && (t.runs[r].status == Completed <==> Completing(cfg, s, a, r))
    && (t.runs[r].status == Failed <==> Failing(s, a, r))
    && (t.runs[r].status == Cancelled <==> Cancelling(cfg, s, a, r))
  }

  lemma StepChangesRun(cfg: Settings, s: Registry, r: RunId, env: Env, max: nat)
    requires Invariant(s, max) && r in s.runs && !Terminal(s.runs[r].status) && s.runs[r].loops != []
    ensures Perform(cfg, max, s, Step(r, 0, env)).runs == s.runs[r := Advance(cfg.of(r), s.runs[r], true, true, 0, env).run]
  {
    assert r in s.active by {
      assert RunInvariant(s, r);
    }
    CommitChangesOneRun(s, r, Advance(cfg.of(r), s.runs[r], true, true, 0, env), max);
  }

  lemma StepEnds(cfg: Settings, s: Registry, a: Act, max: nat, r: RunId)
    requires Invariant(s, max) && r in s.runs && !Terminal(s.runs[r].status) && a.Step? && a.id == r
    ensures EndsExactly(cfg, s, a, max, r)
  {
    assert RunInvariant(s, r);
    if a.loop < |s.runs[r].loops| {
      assert a == Step(r, 0, a.env);
      StepChangesRun(cfg, s, r, a.env, max);
      LoopEnds(cfg.of(r), s.runs[r], a.env);
    } else {
      assert Perform(cfg, max, s, a) == s;
    }
  }

  lemma StartEnds(cfg: Settings, s: Registry, a: Act, max: nat, r: RunId)
    requires Invariant(s, max) && r in s.runs && !Terminal(s.runs[r].status) && a.Start? && a.id == r
    ensures EndsExactly(cfg, s, a, max, r)
  {
    assert RunInvariant(s, r);
    var run := s.runs[r];
    if !run.running {
      CommitChangesOneRun(s, r, StartRun(cfg.of(r), run, a.env), max);
      StartedStatus(cfg.of(r), run, a.env);
    }
  }

  lemma StartedStatus(cfg: Config, run: Run, env: Env)
    requires Sound(run) && !Terminal(run.status) && !run.running
    ensures !Terminal(StartRun(cfg, run, env).run.status)
  {
  }

  lemma InterruptionEnds(cfg: Settings, s: Registry, a: Act, max: nat, r: RunId)
    requires Invariant(s, max) && r in s.runs && !Terminal(s.runs[r].status) && a.id == r && (a.Deadline? || a.FinishCancel?)
    ensures EndsExactly(cfg, s, a, max, r)
  {
    var run, active, known := s.runs[r], r in s.active, Known(s, r);
    assert RunInvariant(s, r);
    InterruptionsKeepSound(run, active, known);
    LiveCancellation(run);
    CommitChangesOneRun(s, r, DeadlineFires(run, active, known), max);
    CommitChangesOneRun(s.(cancels := s.cancels - multiset{r}), r, Lifecycle.FinishCancel(run, active, known), max);
  }

  lemma LiveCancellation(run: Run)
    requires !Terminal(run.status) && run.machine == run.status
    ensures Lifecycle.FinishCancel(run, true, true).run.status == Cancelled
  {
  }

  /** Exactly which actions complete, fail or cancel a live run. */
  lemma EndsIff(cfg: Settings, s: Registry, a: Act, max: nat, r: RunId)
    requires Invariant(s, max) && max > 0 && r in s.runs && !Terminal(s.runs[r].status)
    ensures EndsExactly(cfg, s, a, max, r)
  {
    if a.id != r {
      OthersUntouched(cfg, s, a, max, r);
    } else if a.Step? {
      StepEnds(cfg, s, a, max, r);
    } else if a.Start? {
      StartEnds(cfg, s, a, max, r);
    } else if a.Deadline? || a.FinishCancel? {
      InterruptionEnds(cfg, s, a, max, r);
    } else {
      assert RunInvariant(s, r);
    }
  }

  predicate Reopens(s: Registry, a: Act, r: RunId) {
    a.Retry? && a.id == r && LetThrough(s, r, a.trial)
  }

  lemma RetriedStatus(cfg: Config, run: Run, t: Retrial, env: Env)
    requires Sound(run) && run.status == Failed && RetryProceeds(run, t)
    ensures RetryRun(cfg, run, t, env).run.status == Completed <==> EndsAtOnce(cfg, run, t, env)
    ensures RetryRun(cfg, run, t, env).run.status != Completed ==> !Terminal(RetryRun(cfg, run, t, env).run.status)
  {
    RetiredAtOnceIff(cfg, run, t, env);
    RetryKeepsSound(cfg, run, t, env);
    var r := Reopen(run, t);
    LaunchIsQuiet(cfg, r, r.hasModel, Loop(AtSettle(true), if r.hasModel then RetryCursor(run, t) else 0, r.machine), env);
    LaunchNeverFails(cfg, r, r.hasModel, if r.hasModel then RetryCursor(run, t) else 0, env);
  }

  lemma LaunchNeverFails(cfg: Config, run: Run, resume: bool, startStep: nat, env: Env)
    requires run.status == run.machine == Retrying && !run.abort
    ensures var after := WithNewLoop(cfg, run, resume, startStep, env).run.status; after != Failed && after != Cancelled
  {
  }

  ghost predicate Reopened(cfg: Settings, s: Registry, a: Act, t: Registry, r: RunId)
    requires r in s.runs
  {
    && r in t.runs
    && (t.runs[r].status != Failed <==> Reopens(s, a, r))
    && (t.runs[r].status == Completed <==> Reopens(s, a, r) && EndsAtOnce(cfg.of(r), s.runs[r], a.trial, a.env))
    && t.runs[r].status != Cancelled
  }

  lemma FailedIsIdle(cfg: Settings, s: Registry, a: Act, max: nat, r: RunId)
    requires Invariant(s, max) && r in s.runs && s.runs[r].status == Failed && a.id == r && !a.Retry?
    ensures var t := Perform(cfg, max, s, a); r in t.runs && t.runs[r].status == Failed
  {
    assert RunInvariant(s, r);
    if a.FinishCancel? {
      CommitChangesOneRun(s.(cancels := s.cancels - multiset{r}), r, Lifecycle.FinishCancel(s.runs[r], r in s.active, Known(s, r)), max);
    }
  }

  lemma RetryOfFailed(cfg: Settings, s: Registry, r: RunId, t: Retrial, env: Env, max: nat)
    requires r in s.runs && s.runs[r].status == Failed && !s.runs[r].running
    requires if r in s.terminal then s.terminal[r] == Failed else r in s.active && r in s.control
    ensures var u := if r in s.terminal then ResurrectSpec(s, r) else s;
            RetrySpec(cfg, max, s, r, t, env)
            == if t.overBudget then s
               else if RetryProceeds(s.runs[r], t) then CommitSpec(u, r, RetryRun(cfg.of(r), s.runs[r], t, env), max)
               else u
  {
  }

  /** What a retry does to the runs: it replaces its own, or nothing. */
  lemma RetryChangesRun(cfg: Settings, s: Registry, r: RunId, t: Retrial, env: Env, max: nat)
    requires Invariant(s, max) && r in s.runs && s.runs[r].status == Failed
    ensures RetrySpec(cfg, max, s, r, t, env).runs
            == if LetThrough(s, r, t) then s.runs[r := RetryRun(cfg.of(r), s.runs[r], t, env).run] else s.runs
  {
    assert !s.runs[r].running by {
      assert RunInvariant(s, r);
    }
    if r in s.terminal || r in s.active {
      RetryOfFailed(cfg, s, r, t, env, max);
    }
    if RetryProceeds(s.runs[r], t) {
      CommitChangesOneRun(if r in s.terminal then ResurrectSpec(s, r) else s, r, RetryRun(cfg.of(r), s.runs[r], t, env), max);
    }
  }

  lemma RetryReopensIff(cfg: Settings, s: Registry, a: Act, max: nat, r: RunId)
    requires Invariant(s, max) && r in s.runs && s.runs[r].status == Failed && a.id == r && a.Retry?
    ensures Reopened(cfg, s, a, Perform(cfg, max, s, a), r)
  {
    assert Sound(s.runs[r]) by {
      assert RunInvariant(s, r);
    }
    assert Perform(cfg, max, s, a) == RetrySpec(cfg, max, s, r, a.trial, a.env);
    RetryChangesRun(cfg, s, r, a.trial, a.env, max);
    if Reopens(s, a, r) {
      RetriedStatus(cfg.of(r), s.runs[r], a.trial, a.env);
    }
  }

  /** A FAILED run leaves that state exactly when a retry of it is let through,
      and then for COMPLETED only if its new loop ends at once. */
  lemma ReopensIff(cfg: Settings, s: Registry, a: Act, max: nat, r: RunId)
    requires Invariant(s, max) && max > 0 && r in s.runs && s.runs[r].status == Failed
    ensures Reopened(cfg, s, a, Perform(cfg, max, s, a), r)
  {
    assert RunInvariant(s, r);
    if a.id != r {
      OthersUntouched(cfg, s, a, max, r);
    } else if a.Retry? {
      RetryReopensIff(cfg, s, a, max, r);
    } else {
      FailedIsIdle(cfg, s, a, max, r);
    }
  }

  // ---------- whole behaviours ----------

  /** In every behaviour: a live run enters COMPLETED exactly when its loop is
      resumed after a final answer or is left with an answer, FAILED exactly when
      a thrown loop settles and no stop was asked for, and CANCELLED exactly by a
      stopped loop, its timer or the end of a cancellation. */
  lemma {:induction false} HowRunsEnd(cfg: Settings, max: nat, states: seq<Registry>, acts: seq<Act>, k: nat, r: RunId)
    requires Behaviour(cfg, max, states, acts) && k < |acts| && r in states[k].runs && !Terminal(states[k].runs[r].status)
    ensures r in states[k + 1].runs
    ensures states[k + 1].runs[r].status == Completed <==> Completing(cfg, states[k], acts[k], r)
    ensures states[k + 1].runs[r].status == Failed <==> Failing(states[k], acts[k], r)
    ensures states[k + 1].runs[r].status == Cancelled <==> Cancelling(cfg, states[k], acts[k], r)
  {
    ReachableSatisfiesInvariant(cfg, max, states, acts, k);
    assert StepAt(cfg, max, states, acts, k);
    EndsIff(cfg, states[k], acts[k], max, r);
  }

  /** In every behaviour a FAILED run is reopened exactly by a retry that is let
      through. */
  lemma {:induction false} HowRunsReopen(cfg: Settings, max: nat, states: seq<Registry>, acts: seq<Act>, k: nat, r: RunId)
    requires Behaviour(cfg, max, states, acts) && k < |acts| && r in states[k].runs && states[k].runs[r].status == Failed
    ensures r in states[k + 1].runs
    ensures states[k + 1].runs[r].status != Failed <==> Reopens(states[k], acts[k], r)
  {
    ReachableSatisfiesInvariant(cfg, max, states, acts, k);
    assert StepAt(cfg, max, states, acts, k);
    ReopensIff(cfg, states[k], acts[k], max, r);
  }

  /** A run appears only when its creation goes on after the check, and then as a
      new one. */
  lemma {:induction false} HowRunsAppear(cfg: Settings, max: nat, states: seq<Registry>, acts: seq<Act>, k: nat, r: RunId)
    requires Behaviour(cfg, max, states, acts) && k < |acts| && r !in states[k].runs
    ensures r in states[k + 1].runs <==> acts[k] == Insert(r) && r in states[k].pending
    ensures r in states[k + 1].runs ==> states[k + 1].runs[r] == NewRun && r in states[k + 1].active
  {
    ReachableSatisfiesInvariant(cfg, max, states, acts, k);
    assert StepAt(cfg, max, states, acts, k);
    OnlyInsertAdds(cfg, states[k], acts[k], max, r);
  }

  lemma StretchAddsNone(cfg: Settings, s: Registry, a: Act, max: nat)
    requires Invariant(s, max) && !a.Insert? && !a.Retry?
    ensures Perform(cfg, max, s, a).runs.Keys == s.runs.Keys
  {
    var id := a.id;
    match a
    case Start(_, env) =>
      if id in s.runs {
        CommitChangesOneRun(s, id, StartRun(cfg.of(id), s.runs[id], env), max);
      }
    case Step(_, i, env) =>
      if id in s.runs && i < |s.runs[id].loops| {
        CommitChangesOneRun(s, id, Advance(cfg.of(id), s.runs[id], id in s.active, Known(s, id), i, env), max);
      }
    case Deadline(_) =>
      if id in s.runs {
        CommitChangesOneRun(s, id, DeadlineFires(s.runs[id], id in s.active, Known(s, id)), max);
      }
    case FinishCancel(_) =>
      if id in s.runs {
        CommitChangesOneRun(s.(cancels := s.cancels - multiset{id}), id, Lifecycle.FinishCancel(s.runs[id], id in s.active, Known(s, id)), max);
      }
    case _ =>
  }

  lemma RetryAddsNone(cfg: Settings, s: Registry, r: RunId, t: Retrial, env: Env, max: nat)
    ensures RetrySpec(cfg, max, s, r, t, env).runs.Keys == s.runs.Keys
  {
    if r in s.runs && RetryProceeds(s.runs[r], t) {
      CommitChangesOneRun(if r in s.terminal then ResurrectSpec(s, r) else s, r, RetryRun(cfg.of(r), s.runs[r], t, env), max);
    }
  }

  lemma OnlyInsertAdds(cfg: Settings, s: Registry, a: Act, max: nat, r: RunId)
    requires Invariant(s, max) && r !in s.runs
    ensures var t := Perform(cfg, max, s, a);
            && (r in t.runs <==> a == Insert(r) && r in s.pending)
            && (r in t.runs ==> t.runs[r] == NewRun && r in t.active)
  {
    if a.Retry? {
      RetryAddsNone(cfg, s, a.id, a.trial, a.env, max);
      assert Perform(cfg, max, s, a) == RetrySpec(cfg, max, s, a.id, a.trial, a.env);
    } else if !a.Insert? {
      StretchAddsNone(cfg, s, a, max);
    }
  }
}
