// What every stretch of code keeps true of a run.
module LifecycleSafety {
  import opened Wrappers
  import opened RunStates
  import opened Lifecycle

  predicate Ended(s: Status) {
    s == Completed || s == Cancelled
  }

  /** The state a run is in while its loop waits at `pc`. */
  predicate StatusAt(pc: Pc, s: Status) {
    match pc
    case AtContext => s == ContextBuild
    case AtModelSelect => s == ModelSelect
    case AtTool(_) => s == WaitingForTool
    case AtPersist(_) => s == Observing
    case AtSettle(true) => CanTransition(s, Failed)
    case _ => s == Executing
  }

  predicate AfterSelection(pc: Pc) {
    !pc.AtContext? && !pc.AtModelSelect? && !pc.AtSettle?
  }

  ghost predicate LoopSound(run: Run, l: Loop) {
    && (!Terminal(run.status) ==> StatusAt(l.pc, run.status))
    && (run.status == Completed ==> l.pc == AtOptimize(false) || l.pc.AtSettle?)
    && (l.entered != Created && l.entered != Retrying ==> l.pc.AtSettle?)
    && (AfterSelection(l.pc) ==> run.hasModel)
  }

  /** The invariant of one run. */
  ghost predicate Sound(run: Run) {
    && run.machine == run.status
    && run.audit.forced == 0
    && run.audit.ends == run.audit.restarts + (if Terminal(run.status) then 1 else 0)
    && |run.loops| <= 1
    && (!Terminal(run.status) ==> (run.running <==> run.loops != []))
    && (!Terminal(run.status) && run.loops == [] ==> run.status == Created || run.status == Executing)
    && (run.status == Failed ==> run.loops == [] && !run.running)
    && (run.deadline ==> !Terminal(run.status))
    && (!Terminal(run.status) && run.running && !run.abort ==> run.deadline)
    && (run.loops != [] ==> LoopSound(run, run.loops[0]))
  }

  /** How a run's place in the registry relates to its status. */
  predicate Placed(run: Run, active: bool, known: bool) {
    && (!Terminal(run.status) ==> active)
    && (active ==> known)
    && (Ended(run.status) ==> !active)
  }

  /** A step keeps the run sound, asks for retirement exactly when it ends the
      run, and leaves an ended run's status alone unless it reopens the run. */
  ghost predicate KeepsSound(before: Run, e: Ending) {
    && Sound(e.run) && e.run.audit.restarts >= before.audit.restarts
    && (Terminal(before.status) && e.run.audit.restarts == before.audit.restarts ==> e.run.status == before.status)
    && (e.retired <==> Terminal(e.run.status) && (!Terminal(before.status) || e.run.audit.restarts > before.audit.restarts))
  }

  /** The run with its only loop suspended where the stretch left it. */
  function After(n: Next, loop: Loop): Ending {
    Ending(n.run.(loops := [Suspended(n, loop)]), n.retired)
  }

  lemma CancelKeepsSound(run: Run, active: bool, known: bool, loop: Loop, more: bool)
    requires Sound(run.(loops := [loop.(pc := AtOptimize(more))])) && Placed(run, active, known)
    ensures KeepsSound(run, After(Return(CancelledRun(run, active, known)), loop))
  {
  }

  lemma FinishKeepsSound(cfg: Config, run: Run, active: bool, known: bool, loop: Loop, more: bool, env: Env)
    requires Sound(run.(loops := [loop.(pc := AtOptimize(more))])) && Placed(run, active, known)
    ensures KeepsSound(run, After(Finish(cfg, run, active, known, loop, env), loop))
  {
  }

  /** The run as it is when its loop re-enters the top of its iteration. */
  function AtTop(run: Run, loop: Loop): Run {
    run.(loops := [loop.(pc := AtOptimize(true))])
  }

  lemma LoopTopKeepsSound(cfg: Config, run: Run, active: bool, known: bool, loop: Loop, env: Env)
    requires Sound(AtTop(run, loop)) && Placed(run, active, known)
    ensures KeepsSound(run, After(LoopTop(cfg, run, active, known, loop, env), loop))
  {
    if loop.steps >= cfg.maxSteps {
      FinishKeepsSound(cfg, run, active, known, loop, true, env);
    } else if run.abort {
      CancelKeepsSound(run, active, known, loop, true);
    }
  }

  /** A permitted change of a live run's state leaves it sound at a fitting await. */
  lemma MoveKeepsSound(run: Run, loop: Loop, to: Status, pc: Pc, steps: nat)
    requires Sound(run) && run.loops == [loop] && !Terminal(run.status) && !loop.pc.AtSettle?
    requires CanTransition(run.status, to) && !Terminal(to)
    requires StatusAt(pc, to) && (AfterSelection(pc) ==> run.hasModel) && !pc.AtSettle?
    ensures KeepsSound(run, After(Wait(run.(machine := to, status := to), pc, steps), loop))
  {
  }

  /** Waiting somewhere else in the same state. */
  lemma WaitKeepsSound(run: Run, loop: Loop, pc: Pc, steps: nat)
    requires Sound(run) && run.loops == [loop] && !loop.pc.AtSettle?
    requires !Terminal(run.status) ==> StatusAt(pc, run.status) || pc == AtSettle(true)
    requires AfterSelection(pc) ==> run.hasModel
    requires run.status == Completed ==> pc == AtOptimize(false) || pc.AtSettle?
    requires loop.entered != Created && loop.entered != Retrying ==> pc.AtSettle?
    ensures Sound(run.(loops := [loop.(pc := pc, steps := steps)]))
  {
  }

  lemma StepDoneKeepsSound(cfg: Config, run: Run, active: bool, known: bool, loop: Loop, env: Env)
    requires Sound(run) && Placed(run, active, known) && run.loops == [loop] && (loop.pc.AtModel? || loop.pc.AtModelAgain?)
    ensures KeepsSound(run, After(StepDone(cfg, run, known, loop, env), loop))
  {
    if !Terminal(run.status) {
      assert ToObserving(run, known) == Some(run.(machine := Observing, status := Observing));
      MoveKeepsSound(run, loop, Observing, AtPersist(env.complete), loop.steps);
    }
  }

  lemma ModelReturnedKeepsSound(cfg: Config, run: Run, active: bool, known: bool, loop: Loop, env: Env)
    requires Sound(run) && Placed(run, active, known) && run.loops == [loop] && (loop.pc.AtModel? || loop.pc.AtModelAgain?)
    ensures KeepsSound(run, After(ModelReturned(cfg, run, known, loop, env), loop))
  {
    if env.tools && !run.abort && env.toolBudget {
      WaitKeepsSound(run, loop, AtSettle(true), loop.steps);
    } else if run.abort {
      WaitKeepsSound(run, loop, AtOptimize(false), loop.steps);
    } else if env.tools || env.heuristic {
      if Terminal(run.status) {
        WaitKeepsSound(run, loop, AtSettle(true), loop.steps);
      } else {
        assert Move(run, known, WaitingForTool) == Some(run.(machine := WaitingForTool, status := WaitingForTool));
        MoveKeepsSound(run, loop, WaitingForTool, AtTool(!env.tools), loop.steps);
      }
    } else {
      StepDoneKeepsSound(cfg, run, active, known, loop, env);
    }
  }

  lemma SelectionKeepsSound(cfg: Config, run: Run, active: bool, known: bool, loop: Loop, env: Env)
    requires Sound(run) && Placed(run, active, known) && run.loops == [loop] && loop.pc.AtModelSelect?
    ensures KeepsSound(run, After(ModelSelected(cfg, run, active, known, loop, env), loop))
  {
    var moved := Move(run.(hasModel := true), known, Executing);
    if !env.throws && moved.Some? {
      LoopTopKeepsSound(cfg, moved.value, active, known, loop, env);
    }
  }

  lemma ToolsKeepSound(cfg: Config, run: Run, active: bool, known: bool, loop: Loop, env: Env)
    requires Sound(run) && Placed(run, active, known) && run.loops == [loop] && loop.pc.AtTool?
    ensures KeepsSound(run, After(ToolsExecuted(run, known, loop, loop.pc.heuristic, env), loop))
  {
    if !Terminal(run.status) {
      var observed := ToObserving(run, known);
      assert observed == Some(run.(machine := Observing, status := Observing));
      assert Move(observed.value, known, Executing) == Some(run.(machine := Executing, status := Executing));
      MoveKeepsSound(run, loop, Executing, AtModelAgain(loop.pc.heuristic), loop.steps);
    }
  }

  lemma PersistKeepsSound(cfg: Config, run: Run, active: bool, known: bool, loop: Loop, env: Env)
    requires Sound(run) && Placed(run, active, known) && run.loops == [loop] && loop.pc.AtPersist?
    ensures KeepsSound(run, After(Persisted(run, active, known, loop, loop.pc.complete, env), loop))
  {
    WaitKeepsSound(run, loop, AtSettle(true), loop.steps);
    if !Terminal(run.status) {
      MoveKeepsSound(run, loop, Executing, AtOptimize(true), loop.steps);
    }
  }

  lemma OptimizeKeepsSound(cfg: Config, run: Run, active: bool, known: bool, loop: Loop, env: Env)
    requires Sound(run) && Placed(run, active, known) && run.loops == [loop] && loop.pc.AtOptimize?
    ensures KeepsSound(run, After(Optimized(cfg, run, active, known, loop, loop.pc.more, env), loop))
  {
    assert run.(loops := [loop.(pc := AtOptimize(loop.pc.more))]) == run;
    FinishKeepsSound(cfg, run, active, known, loop, loop.pc.more, env);
    CancelKeepsSound(run, active, known, loop, loop.pc.more);
    if loop.pc.more {
      LoopTopKeepsSound(cfg, run, active, known, loop, env);
    }
  }

  lemma SettleKeepsSound(run: Run, active: bool, known: bool, loop: Loop)
    requires Sound(run) && Placed(run, active, known) && run.loops == [loop] && loop.pc.AtSettle?
    ensures var n := Settled(run, active, known, loop.pc.failed); KeepsSound(run, Ending(n.run.(loops := []), n.retired))
  {
  }

  lemma ContextKeepsSound(run: Run, active: bool, known: bool, loop: Loop, env: Env)
    requires Sound(run) && Placed(run, active, known) && run.loops == [loop] && loop.pc.AtContext?
    ensures KeepsSound(run, After(ContextBuilt(run, known, loop, env), loop))
  {
  }

  lemma CheaperModelKeepsSound(run: Run, active: bool, known: bool, loop: Loop, env: Env)
    requires Sound(run) && Placed(run, active, known) && run.loops == [loop] && loop.pc.AtBudget?
    ensures KeepsSound(run, After(CheaperModelSought(run, loop, env), loop))
  {
  }

  lemma FailoverKeepsSound(run: Run, active: bool, known: bool, loop: Loop, env: Env)
    requires Sound(run) && Placed(run, active, known) && run.loops == [loop] && loop.pc.AtFailover?
    ensures KeepsSound(run, After(FailedOver(run, loop, env), loop))
  {
  }

  lemma ModelAnswerKeepsSound(cfg: Config, run: Run, active: bool, known: bool, loop: Loop, env: Env)
    requires Sound(run) && Placed(run, active, known) && run.loops == [loop] && loop.pc.AtModel?
    ensures KeepsSound(run, After(ModelAnswered(cfg, run, known, loop, env), loop))
  {
    if !env.throws {
      ModelReturnedKeepsSound(cfg, run, active, known, loop, env);
    }
  }

  lemma ContinuationKeepsSound(cfg: Config, run: Run, active: bool, known: bool, loop: Loop, env: Env)
    requires Sound(run) && Placed(run, active, known) && run.loops == [loop] && loop.pc.AtModelAgain?
    ensures KeepsSound(run, After(ModelContinued(cfg, run, known, loop, loop.pc.heuristic, env), loop))
  {
    if !env.throws {
      if loop.pc.heuristic {
        StepDoneKeepsSound(cfg, run, active, known, loop, env);
      } else {
        ModelReturnedKeepsSound(cfg, run, active, known, loop, env);
      }
    }
  }

  lemma ResumeKeepsSound(cfg: Config, run: Run, active: bool, known: bool, loop: Loop, env: Env)
    requires Sound(run) && Placed(run, active, known) && run.loops == [loop] && !loop.pc.AtSettle?
    ensures KeepsSound(run, After(ResumeLoop(cfg, run, active, known, loop, env), loop))
  {
    match loop.pc
    case AtContext => ContextKeepsSound(run, active, known, loop, env);
    case AtModelSelect => SelectionKeepsSound(cfg, run, active, known, loop, env);
    case AtBudget => CheaperModelKeepsSound(run, active, known, loop, env);
    case AtModel => ModelAnswerKeepsSound(cfg, run, active, known, loop, env);
    case AtFailover => FailoverKeepsSound(run, active, known, loop, env);
    case AtTool(_) => ToolsKeepSound(cfg, run, active, known, loop, env);
    case AtModelAgain(_) => ContinuationKeepsSound(cfg, run, active, known, loop, env);
    case AtPersist(_) => PersistKeepsSound(cfg, run, active, known, loop, env);
    case AtOptimize(_) => OptimizeKeepsSound(cfg, run, active, known, loop, env);
  }

  /** Resuming the only loop of a run, spelled out. */
  /** Forcing an end past a refused transition, and refusing a loop one, never goes
      unrecorded. */
  lemma FallbackIsRecorded(run: Run, known: bool)
    requires !Terminal(run.status)
    ensures CancelledRun(run, true, known).run.audit.forced == run.audit.forced + if Move(run, known, Cancelled).Some? then 0 else 1
    ensures !(known && run.abort) ==>
              FailRun(run, true, known).run.audit.forced == run.audit.forced + if Move(run, known, Failed).Some? then 0 else 1
  {
  }

  lemma AdvanceUnfolds(cfg: Config, run: Run, active: bool, known: bool, env: Env)
    requires |run.loops| == 1
    ensures var loop, r := run.loops[0], WithNoise(cfg, run, env.noise);
            && r.loops == [loop]
            && (loop.pc.AtSettle? ==>
                  var n := Settled(r, active, known, loop.pc.failed);
                  Advance(cfg, run, active, known, 0, env) == Ending(n.run.(loops := []), n.retired))
            && (!loop.pc.AtSettle? ==>
                  Advance(cfg, run, active, known, 0, env) == After(ResumeLoop(cfg, r, active, known, loop, env), loop))
  {
    var loop, r := run.loops[0], WithNoise(cfg, run, env.noise);
    assert r.loops == [loop];
    assert run.loops[..0] + run.loops[1..] == [];
    var n := ResumeLoop(cfg, r, active, known, loop, env);
    assert run.loops[0 := Suspended(n, loop)] == [Suspended(n, loop)];
  }

  /** Whatever the environment answers, resuming a loop keeps the invariant. */
  lemma AdvanceKeepsSound(cfg: Config, run: Run, active: bool, known: bool, env: Env)
    requires Sound(run) && Placed(run, active, known) && run.loops != []
    ensures KeepsSound(run, Advance(cfg, run, active, known, 0, env))
  {
    AdvanceUnfolds(cfg, run, active, known, env);
    var loop, r := run.loops[0], WithNoise(cfg, run, env.noise);
    if loop.pc.AtSettle? {
      SettleKeepsSound(r, active, known, loop);
    } else {
      ResumeKeepsSound(cfg, r, active, known, loop, env);
    }
  }

  /** A run whose flags have been set for a new loop. */
  predicate Entering(run: Run) {
    && run.machine == run.status && (run.status.Created? || run.status.Executing? || run.status.Retrying?)
    && run.running && run.deadline && run.loops == [] && run.audit.forced == 0 && run.audit.ends == run.audit.restarts
  }

  ghost predicate SoundEntry(before: Run, e: Ending) {
    Sound(e.run) && (e.retired <==> Terminal(e.run.status)) && e.run.audit.restarts == before.audit.restarts
  }

  lemma ResumedLaunchKeepsSound(cfg: Config, run: Run, loop: Loop, env: Env)
    requires Entering(run) && run.status.Retrying? && run.hasModel && loop.entered == Retrying
    ensures SoundEntry(run, After(Launch(cfg, run, true, true, true, loop, env), loop))
  {
    var entry := run.(machine := Executing, status := Executing);
    assert Move(run, true, Executing) == Some(entry);
    LoopTopKeepsSound(cfg, entry, true, true, loop, env);
  }

  lemma FreshLaunchKeepsSound(cfg: Config, run: Run, loop: Loop, env: Env)
    requires Entering(run) && loop.entered == run.status
    ensures SoundEntry(run, After(Launch(cfg, run, true, true, false, loop, env), loop))
  {
    if run.status.Executing? {
      assert Move(run, true, Planning) == None;
    } else {
      var entry := run.(machine := Planning, status := Planning);
      assert Move(run, true, Planning) == Some(entry);
      assert Move(entry, true, ContextBuild) == Some(run.(machine := ContextBuild, status := ContextBuild));
    }
  }

  lemma LaunchKeepsSound(cfg: Config, run: Run, resume: bool, startStep: nat, env: Env)
    requires Entering(run) && (resume ==> run.status.Retrying? && run.hasModel)
    ensures SoundEntry(run, WithNewLoop(cfg, run, resume, startStep, env))
  {
    var loop := Loop(AtSettle(true), startStep, run.machine);
    assert WithNewLoop(cfg, run, resume, startStep, env) == After(Launch(cfg, run, true, true, resume, loop, env), loop) by {
      assert forall l: Loop :: [] + [l] == [l];
    }
    if resume {
      ResumedLaunchKeepsSound(cfg, run, loop, env);
    } else {
      FreshLaunchKeepsSound(cfg, run, loop, env);
    }
  }

  lemma StartKeepsSound(cfg: Config, run: Run, env: Env)
    requires Sound(run) && StartAllowed(run, true, true, false)
    ensures KeepsSound(run, StartRun(cfg, run, env))
  {
    LaunchKeepsSound(cfg, run.(running := true, abort := false, deadline := true), false, 0, env);
  }

  lemma RetryKeepsSound(cfg: Config, run: Run, t: Retrial, env: Env)
    requires Sound(run) && run.status == Failed && RetryProceeds(run, t)
    ensures KeepsSound(run, RetryRun(cfg, run, t, env))
  {
    var r := Reopen(run, t);
    assert Entering(r);
    LaunchKeepsSound(cfg, r, r.hasModel, if r.hasModel then RetryCursor(run, t) else 0, env);
  }

  lemma InterruptionsKeepSound(run: Run, active: bool, known: bool)
    requires Sound(run) && Placed(run, active, known)
    ensures run.deadline ==> KeepsSound(run, DeadlineFires(run, active, known))
    ensures run.deadline ==> DeadlineFires(run, active, known).run.status == Cancelled
    ensures !Terminal(run.status) ==> Sound(RequestCancel(run))
    ensures KeepsSound(run, FinishCancel(run, active, known))
  {
  }
}
