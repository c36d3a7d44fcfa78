// Refused transitions, and the order of completed steps, over a run's stretches.
module StepOrder {
  import opened Wrappers
  import opened RunStates
  import opened Checkpoints
  import opened Recovery
  import opened Lifecycle
  import opened LifecycleSafety

  // ---------- completed steps ----------

  function LastDone(run: Run): nat {
    if run.audit.done == [] then 0 else run.audit.done[|run.audit.done| - 1]
  }

  ghost predicate Increasing(s: seq<nat>) {
    && (s != [] ==> s[0] > 0)
    && forall i :: 0 < i < |s| ==> s[i - 1] < s[i]
  }

  ghost predicate AllModelled(marks: seq<Mark>) {
    forall m :: m in marks && m.completed ==> m.model
  }

  predicate NewestIsLast(run: Run) {
    var newest := NewestCompleted(run.checkpoints);
    newest.Some? ==> run.audit.done != [] && newest.value.step == LastDone(run)
  }

  /** The completed steps of a run strictly increase and stay within the step
      budget, its newest completed checkpoint, if still held, is the last, and
      the live cursor is never before it. */
  ghost predicate OrderedData(cfg: Config, run: Run) {
    && Increasing(run.audit.done) && LastDone(run) <= cfg.maxSteps
    && (run.audit.done != [] ==> run.hasModel)
    && (run.status.Created? ==> run.audit.done == [])
    && AllModelled(run.checkpoints) && NewestIsLast(run)
    && LastDone(run) <= run.currentStep
  }

  predicate MidStep(pc: Pc) {
    pc.AtModel? || pc.AtFailover? || pc.AtTool? || pc.AtModelAgain?
  }

  /** A live loop works on a step after the last completed one. */
  predicate OrderedLoop(cfg: Config, run: Run, pc: Pc, steps: nat) {
    && (!pc.AtSettle? ==> LastDone(run) <= steps <= run.currentStep)
    && (MidStep(pc) ==> LastDone(run) < steps <= cfg.maxSteps)
    && (pc.AtBudget? ==> steps < cfg.maxSteps)
  }

  ghost predicate Ordered(cfg: Config, run: Run) {
    && OrderedData(cfg, run)
    && (run.loops != [] && !Terminal(run.status) ==> OrderedLoop(cfg, run, run.loops[0].pc, run.loops[0].steps))
  }

  lemma DropOldest(marks: seq<Mark>)
    requires marks != []
    ensures NewestCompleted(marks[1..]) == NewestCompleted(marks) || NewestCompleted(marks[1..]) == None
  {
    var n := |marks|;
    if n > 1 && !marks[n - 1].completed {
      assert marks[1..][..n - 2] == marks[..n - 1][1..];
      DropOldest(marks[..n - 1]);
    }
  }

  lemma PushNewest(cfg: Config, marks: seq<Mark>, m: Mark)
    requires cfg.maxCheckpoints > 0
    ensures m.completed ==> NewestCompleted(Push(cfg, marks, m)) == Some(m)
    ensures !m.completed ==> NewestCompleted(Push(cfg, marks, m)) == NewestCompleted(marks) || NewestCompleted(Push(cfg, marks, m)) == None
    ensures AllModelled(marks) && (m.completed ==> m.model) ==> AllModelled(Push(cfg, marks, m))
  {
    assert (marks + [m])[..|marks|] == marks;
    if |marks| + 1 > cfg.maxCheckpoints {
      DropOldest(marks + [m]);
      if m.completed {
        var p := Push(cfg, marks, m);
        assert |marks| > 0 ==> p[|p| - 1] == m;
      }
    }
  }

  // ---------- what one stretch leaves alone ----------

  /** A refused transition is recorded, and met only by a CANCELLED run. */
  predicate RefusedOnlyWhenCancelled(run: Run, loop: Loop, after: Run) {
    || after.audit.rejected == run.audit.rejected
    || (run.status == Cancelled && after.audit.rejected == run.audit.rejected + [Rejection(loop.entered, Cancelled)])
  }

  predicate Progress(cfg: Config, loop: Loop, flow: Flow) {
    flow.Await? ==>
      || (flow.pc.AtModel? && flow.steps == loop.steps + 1 <= cfg.maxSteps && !MidStep(loop.pc))
      || (flow.steps == loop.steps && (MidStep(flow.pc) ==> MidStep(loop.pc)) && (flow.pc.AtBudget? ==> loop.steps < cfg.maxSteps))
  }

  /** The stretch completes no step, records no checkpoint and reopens nothing. */
  predicate CompletesNoStep(run: Run, after: Run) {
    && (Terminal(run.status) ==> after.status == run.status) && (after.status.Created? ==> run.status.Created?)
    && after.audit.done == run.audit.done && after.audit.restarts == run.audit.restarts
    && after.checkpoints == run.checkpoints && (run.hasModel ==> after.hasModel)
    && after.currentStep >= run.currentStep
  }

  /** The live cursor moves on with the loop. */
  predicate CursorFollows(run: Run, loop: Loop, n: Next) {
    n.flow.Await? ==> n.run.currentStep - run.currentStep >= n.flow.steps - loop.steps
  }

  predicate Quiet(cfg: Config, run: Run, loop: Loop, n: Next) {
    && CompletesNoStep(run, n.run) && RefusedOnlyWhenCancelled(run, loop, n.run)
    && Progress(cfg, loop, n.flow) && CursorFollows(run, loop, n)
  }

  predicate EndsQuietly(run: Run, after: Run) {
    CompletesNoStep(run, after) && after.audit.rejected == run.audit.rejected && after.loops == run.loops
  }

  lemma CancelledRunIsQuiet(run: Run, active: bool, known: bool)
    ensures EndsQuietly(run, CancelledRun(run, active, known).run)
  {
  }

  lemma FailRunIsQuiet(run: Run, active: bool, known: bool)
    ensures EndsQuietly(run, FailRun(run, active, known).run)
  {
    CancelledRunIsQuiet(run, active, known);
  }

  lemma CompleteRunIsQuiet(run: Run, active: bool, known: bool)
    ensures var e := CompleteRun(run, active, known); e.Some? ==> EndsQuietly(run, e.value.run)
  {
  }

  lemma FinishIsQuiet(cfg: Config, run: Run, active: bool, known: bool, loop: Loop, env: Env)
    requires Placed(run, active, known) && run.machine == run.status
    requires !Terminal(run.status) ==> run.status == Executing
    ensures Quiet(cfg, run, loop, Finish(cfg, run, active, known, loop, env))
  {
    CompleteRunIsQuiet(run, active, known);
  }

  lemma LoopTopIsQuiet(cfg: Config, run: Run, active: bool, known: bool, loop: Loop, env: Env)
    requires Placed(run, active, known) && run.machine == run.status && !MidStep(loop.pc)
    requires !Terminal(run.status) ==> run.status == Executing
    ensures Quiet(cfg, run, loop, LoopTop(cfg, run, active, known, loop, env))
  {
    FinishIsQuiet(cfg, run, active, known, loop, env);
    CancelledRunIsQuiet(run, active, known);
  }

  lemma SetupIsQuiet(cfg: Config, run: Run, active: bool, known: bool, loop: Loop, env: Env)
    requires Sound(run) && Placed(run, active, known) && run.loops == [loop]
    ensures loop.pc.AtContext? ==> Quiet(cfg, run, loop, ContextBuilt(run, known, loop, env))
    ensures loop.pc.AtModelSelect? ==> Quiet(cfg, run, loop, ModelSelected(cfg, run, active, known, loop, env))
  {
    var moved := Move(run.(hasModel := true), known, Executing);
    if loop.pc.AtModelSelect? && moved.Some? {
      LoopTopIsQuiet(cfg, moved.value, active, known, loop, env);
    }
  }

  lemma BetweenStepsIsQuiet(cfg: Config, run: Run, active: bool, known: bool, loop: Loop, env: Env)
    requires Sound(run) && Placed(run, active, known) && run.loops == [loop]
    ensures loop.pc.AtFailover? ==> Quiet(cfg, run, loop, FailedOver(run, loop, env))
    ensures loop.pc.AtBudget? && (Terminal(run.status) || loop.steps < cfg.maxSteps) ==> Quiet(cfg, run, loop, CheaperModelSought(run, loop, env))
    ensures loop.pc.AtTool? ==> Quiet(cfg, run, loop, ToolsExecuted(run, known, loop, loop.pc.heuristic, env))
  {
  }

  lemma PersistedIsQuiet(cfg: Config, run: Run, active: bool, known: bool, loop: Loop, env: Env)
    requires Sound(run) && Placed(run, active, known) && run.loops == [loop] && loop.pc.AtPersist?
    ensures Quiet(cfg, run, loop, Persisted(run, active, known, loop, loop.pc.complete, env))
  {
    CompleteRunIsQuiet(run, active, known);
  }

  lemma OptimizedIsQuiet(cfg: Config, run: Run, active: bool, known: bool, loop: Loop, env: Env)
    requires Sound(run) && Placed(run, active, known) && run.loops == [loop] && loop.pc.AtOptimize?
    ensures Quiet(cfg, run, loop, Optimized(cfg, run, active, known, loop, loop.pc.more, env))
  {
    CancelledRunIsQuiet(run, active, known);
    FinishIsQuiet(cfg, run, active, known, loop, env);
    LoopTopIsQuiet(cfg, run, active, known, loop, env);
  }

  lemma SettledIsQuiet(cfg: Config, run: Run, active: bool, known: bool, loop: Loop, failed: bool)
    ensures Quiet(cfg, run, loop, Settled(run, active, known, failed))
  {
    FailRunIsQuiet(run, active, known);
  }

  // ---------- the stretch that completes a step ----------

  /** Exactly the step of the loop is completed, with its checkpoint. */
  predicate CompletesStep(cfg: Config, run: Run, loop: Loop, n: Next) {
    && n.flow.Await? && n.flow.pc.AtPersist? && n.flow.steps == loop.steps
    && n.run.audit.done == run.audit.done + [loop.steps] && n.run.hasModel == run.hasModel
    && n.run.checkpoints == Push(cfg, run.checkpoints, Mark(loop.steps, true, run.hasModel))
    && n.run.audit.rejected == run.audit.rejected && !Terminal(run.status) && n.run.status.Observing?
    && n.run.currentStep == run.currentStep
  }

  lemma StepDoneQuietOrCompletes(cfg: Config, run: Run, active: bool, known: bool, loop: Loop, env: Env)
    requires Sound(run) && Placed(run, active, known) && run.loops == [loop] && (loop.pc.AtModel? || loop.pc.AtModelAgain?)
    ensures var n := StepDone(cfg, run, known, loop, env); Quiet(cfg, run, loop, n) || CompletesStep(cfg, run, loop, n)
  {
  }

  lemma ModelReturnedQuietOrCompletes(cfg: Config, run: Run, active: bool, known: bool, loop: Loop, env: Env)
    requires Sound(run) && Placed(run, active, known) && run.loops == [loop] && (loop.pc.AtModel? || loop.pc.AtModelAgain?)
    ensures var n := ModelReturned(cfg, run, known, loop, env); Quiet(cfg, run, loop, n) || CompletesStep(cfg, run, loop, n)
  {
    StepDoneQuietOrCompletes(cfg, run, active, known, loop, env);
  }

  /** Every stretch of a live loop is quiet or completes exactly its own step. */
  lemma ResumeQuietOrCompletes(cfg: Config, run: Run, active: bool, known: bool, loop: Loop, env: Env)
    requires Sound(run) && Placed(run, active, known) && run.loops == [loop]
    requires loop.pc.AtBudget? && !Terminal(run.status) ==> loop.steps < cfg.maxSteps
    ensures var n := ResumeLoop(cfg, run, active, known, loop, env);
            Quiet(cfg, run, loop, n) || (CompletesStep(cfg, run, loop, n) && MidStep(loop.pc))
  {
    match loop.pc
    case AtContext | AtModelSelect => SetupIsQuiet(cfg, run, active, known, loop, env);
    case AtFailover | AtBudget | AtTool(_) => BetweenStepsIsQuiet(cfg, run, active, known, loop, env);
    case AtModel | AtModelAgain(_) =>
      StepDoneQuietOrCompletes(cfg, run, active, known, loop, env);
      ModelReturnedQuietOrCompletes(cfg, run, active, known, loop, env);
    case AtPersist(_) => PersistedIsQuiet(cfg, run, active, known, loop, env);
    case AtOptimize(_) => OptimizedIsQuiet(cfg, run, active, known, loop, env);
    case AtSettle(failed) => SettledIsQuiet(cfg, run, active, known, loop, failed);
  }

  /** A resumed loop is refused a transition only when the run is already CANCELLED. */
  lemma ResumedLoopRefusedOnlyWhenCancelled(cfg: Config, run: Run, active: bool, known: bool, loop: Loop, env: Env)
    requires Sound(run) && Placed(run, active, known) && run.loops == [loop]
    ensures RefusedOnlyWhenCancelled(run, loop, ResumeLoop(cfg, run, active, known, loop, env).run)
  {
    if !loop.pc.AtBudget? {
      ResumeQuietOrCompletes(cfg, run, active, known, loop, env);
    }
  }

  // ---------- order over whole stretches ----------

  lemma QuietKeepsOrder(cfg: Config, run: Run, loop: Loop, n: Next)
    requires Ordered(cfg, run) && run.loops == [loop] && !loop.pc.AtSettle? && Quiet(cfg, run, loop, n)
    ensures Ordered(cfg, After(n, loop).run)
  {
  }

  lemma CompletionKeepsOrder(cfg: Config, run: Run, loop: Loop, n: Next)
    requires Sane(cfg) && Ordered(cfg, run) && run.loops == [loop] && !Terminal(run.status)
    requires CompletesStep(cfg, run, loop, n) && MidStep(loop.pc) && run.hasModel
    ensures Ordered(cfg, After(n, loop).run)
  {
    PushNewest(cfg, run.checkpoints, Mark(loop.steps, true, run.hasModel));
    var before, done := run.audit.done, n.run.audit.done;
    forall i | 0 < i < |done|
      ensures done[i - 1] < done[i]
    {
      if i < |before| {
        assert before[i - 1] < before[i];
      }
    }
  }

  lemma NoiseKeepsNewest(cfg: Config, marks: seq<Mark>, step: nat, model: bool, n: nat)
    requires Sane(cfg) && AllModelled(marks)
    ensures var after := Noise(cfg, marks, step, model, n);
            AllModelled(after) && (NewestCompleted(after) == NewestCompleted(marks) || NewestCompleted(after) == None)
    decreases n
  {
    if n > 0 {
      PushNewest(cfg, marks, Mark(step, false, model));
      NoiseKeepsNewest(cfg, Push(cfg, marks, Mark(step, false, model)), step, model, n - 1);
    }
  }

  lemma ResumeKeepsOrder(cfg: Config, run: Run, active: bool, known: bool, loop: Loop, env: Env)
    requires Sane(cfg) && Sound(run) && Ordered(cfg, run) && Placed(run, active, known) && run.loops == [loop] && !loop.pc.AtSettle?
    ensures Ordered(cfg, After(ResumeLoop(cfg, run, active, known, loop, env), loop).run)
  {
    var n := ResumeLoop(cfg, run, active, known, loop, env);
    ResumeQuietOrCompletes(cfg, run, active, known, loop, env);
    if Quiet(cfg, run, loop, n) {
      QuietKeepsOrder(cfg, run, loop, n);
    } else {
      CompletionKeepsOrder(cfg, run, loop, n);
    }
  }

  lemma SettleKeepsOrder(cfg: Config, run: Run, active: bool, known: bool, loop: Loop)
    requires Ordered(cfg, run) && loop.pc.AtSettle?
    ensures Ordered(cfg, Settled(run, active, known, loop.pc.failed).run.(loops := []))
  {
    SettledIsQuiet(cfg, run, active, known, loop, loop.pc.failed);
  }

  lemma NoiseKeepsOrder(cfg: Config, run: Run, n: nat)
    requires Sane(cfg) && Ordered(cfg, run)
    ensures Ordered(cfg, WithNoise(cfg, run, n))
  {
    NoiseKeepsNewest(cfg, run.checkpoints, run.currentStep, run.hasModel, n);
  }

  /** Resuming a loop, with any checkpoints recorded meanwhile, keeps the order. */
  lemma AdvanceKeepsOrder(cfg: Config, run: Run, active: bool, known: bool, env: Env)
    requires Sane(cfg) && Sound(run) && Ordered(cfg, run) && Placed(run, active, known) && run.loops != []
    ensures Ordered(cfg, Advance(cfg, run, active, known, 0, env).run)
  {
    NoiseKeepsOrder(cfg, run, env.noise);
    AdvanceUnfolds(cfg, run, active, known, env);
    var loop, r := run.loops[0], WithNoise(cfg, run, env.noise);
    if loop.pc.AtSettle? {
      SettleKeepsOrder(cfg, r, active, known, loop);
    } else {
      ResumeKeepsOrder(cfg, r, active, known, loop, env);
    }
  }

  // ---------- new loops and interruptions ----------

  /** A new loop is refused a transition only when it is entered from neither
      CREATED nor RETRYING. */
  predicate LaunchesQuietly(cfg: Config, run: Run, loop: Loop, n: Next) {
    && CompletesNoStep(run, n.run) && Progress(cfg, loop, n.flow) && CursorFollows(run, loop, n)
    && (|| n.run.audit.rejected == run.audit.rejected
        || (run.status.Executing? && n.flow.Threw? && n.run.audit.rejected == run.audit.rejected + [Rejection(Executing, Executing)]))
    && (run.status.Executing? ==> n.flow.Threw?)
  }

  lemma LaunchIsQuiet(cfg: Config, run: Run, resume: bool, loop: Loop, env: Env)
    requires Entering(run) && (resume ==> run.status.Retrying?) && loop.entered == run.status && loop.pc.AtSettle?
    ensures LaunchesQuietly(cfg, run, loop, Launch(cfg, run, true, true, resume, loop, env))
  {
    if resume {
      LoopTopIsQuiet(cfg, run.(machine := Executing, status := Executing), true, true, loop, env);
    }
  }

  lemma LaunchedLoopKeepsOrder(cfg: Config, run: Run, loop: Loop, n: Next)
    requires LaunchesQuietly(cfg, run, loop, n) && OrderedData(cfg, run) && loop.pc.AtSettle?
    requires run.status.Executing? || LastDone(run) <= loop.steps <= run.currentStep
    ensures Ordered(cfg, n.run.(loops := [Suspended(n, loop)]))
  {
  }

  lemma NewLoopKeepsOrder(cfg: Config, run: Run, resume: bool, startStep: nat, env: Env)
    requires Entering(run) && (resume ==> run.status.Retrying?) && OrderedData(cfg, run)
    requires run.status.Executing? || LastDone(run) <= startStep <= run.currentStep
    ensures Ordered(cfg, WithNewLoop(cfg, run, resume, startStep, env).run)
  {
    var loop := Loop(AtSettle(true), startStep, run.machine);
    var n := Launch(cfg, run, true, true, resume, loop, env);
    LaunchIsQuiet(cfg, run, resume, loop, env);
    LaunchedLoopKeepsOrder(cfg, run, loop, n);
    assert [] + [Suspended(n, loop)] == [Suspended(n, loop)];
  }

  lemma StartKeepsOrder(cfg: Config, run: Run, env: Env)
    requires Sound(run) && Ordered(cfg, run) && StartAllowed(run, true, true, false)
    ensures Ordered(cfg, StartRun(cfg, run, env).run)
  {
    NewLoopKeepsOrder(cfg, run.(running := true, abort := false, deadline := true), false, 0, env);
  }

  /** A retry proceeds exactly when recovery evaluates, may continue on what it
      finds, and a checkpoint to restore fits. */
  lemma RetryProceedsIff(run: Run, t: Retrial)
    ensures var raw := SourceOf(run, t);
            RetryProceeds(run, t) <==>
              && t.evaluates && (Restores(run, t) ==> t.fits)
              && MayContinue(CodeOf(raw, t.code), if raw.Some? then Some(raw.value.step) else None, t.record, t.known, t.rules)
  {
    var raw := SourceOf(run, t);
    ContinuesIff(CodeOf(raw, t.code), if raw.Some? then Some(raw.value.step) else None, t.record, t.known, t.rules);
  }

  /** Rules that never let a run go on reopen one only where nothing was started
      and there is no checkpoint to restore. */
  lemma AskingNeverReopens(run: Run, t: Retrial)
    requires t.rules.Some? && forall e :: !GoesOn(t.rules.value(e))
    ensures RetryProceeds(run, t) ==> !Restores(run, t) && t.record.state == NotStarted
  {
    RetryProceedsIff(run, t);
  }

  /** A retry that names a held checkpoint, completed and valid, continues right
      after its step. */
  lemma NamedRetryContinuesThere(run: Run, t: Retrial, i: nat)
    requires RetryProceeds(run, t) && t.pick == Some(i) && i < |run.checkpoints| && run.checkpoints[i].completed && t.code == Usable
    ensures Restores(run, t) && RetryCursor(run, t) == run.checkpoints[i].step == Reopen(run, t).currentStep
    ensures Reopen(run, t).hasModel == run.checkpoints[i].model
  {
  }

  lemma NewestIsHeld(marks: seq<Mark>)
    ensures NewestCompleted(marks).Some? ==> NewestCompleted(marks).value in marks && NewestCompleted(marks).value.completed
  {
  }

  /** Nothing is completed yet, or the newest completed checkpoint is still held. */
  predicate StillHeld(run: Run) {
    run.audit.done != [] ==> NewestCompleted(run.checkpoints).Some?
  }

  /** A retry without an explicit checkpoint continues right after the last
      completed step, as long as that step's checkpoint is still held. */
  lemma RetryContinuesAfterLastDone(run: Run, cfg: Config, t: Retrial)
    requires OrderedData(cfg, run) && RetryProceeds(run, t) && t.pick.None? && StillHeld(run)
    ensures run.audit.done != [] ==> Restores(run, t) && Reopen(run, t).hasModel && RetryCursor(run, t) == LastDone(run)
  {
    NewestIsHeld(run.checkpoints);
  }

  /** Once that checkpoint has been evicted, a retry with no recorded side
      effect starts over from the first step, and any other retry that proceeds
      continues from the live cursor. */
  lemma LostCheckpointCursor(run: Run, cfg: Config, t: Retrial)
    requires OrderedData(cfg, run) && run.audit.done != [] && t.pick.None? && !StillHeld(run) && RetryProceeds(run, t)
    ensures !Restores(run, t) && RetryCursor(run, t) == if t.record.state == NotStarted then 0 else run.currentStep
  {
  }

  lemma IncreasingPairs(s: seq<nat>, i: nat, j: nat)
    requires Increasing(s) && i < j < |s|
    ensures s[i] < s[j]
  {
    if i + 1 < j {
      IncreasingPairs(s, i, j - 1);
    }
  }

  lemma LastDoneIsPositive(run: Run)
    requires Increasing(run.audit.done) && run.audit.done != []
    ensures LastDone(run) > 0
  {
    if |run.audit.done| > 1 {
      IncreasingPairs(run.audit.done, 0, |run.audit.done| - 1);
    }
  }

  /** Exactly which retries repeat finished work: those that no longer find the
      newest completed checkpoint and have no recorded side effect. */
  lemma RetryRepeatsIff(run: Run, cfg: Config, t: Retrial)
    requires OrderedData(cfg, run) && RetryProceeds(run, t) && t.pick.None?
    ensures RetryCursor(run, t) < LastDone(run) <==> !StillHeld(run) && t.record.state == NotStarted
  {
    if run.audit.done != [] {
      LastDoneIsPositive(run);
      if StillHeld(run) {
        RetryContinuesAfterLastDone(run, cfg, t);
      } else {
        LostCheckpointCursor(run, cfg, t);
      }
    }
  }

  /** The retry proceeds and either restores a checkpoint older than the last
      completed step or, finding none to restore, has no recorded side effect. */
  predicate GoesBack(run: Run, t: Retrial) {
    && RetryProceeds(run, t) && run.audit.done != []
    && if Restores(run, t) then SourceOf(run, t).value.step < LastDone(run) else t.record.state == NotStarted
  }

  /** Exactly the retries that start before the last completed step, whether
      they name a checkpoint or not. */
  lemma GoesBackIff(run: Run, cfg: Config, t: Retrial)
    requires OrderedData(cfg, run) && RetryProceeds(run, t)
    ensures RetryCursor(run, t) < LastDone(run) <==> GoesBack(run, t)
  {
    if run.audit.done != [] {
      LastDoneIsPositive(run);
    }
  }

  /** A retry of a failed run that keeps its place by what a caller can see. */
  predicate KeepsItsPlace(run: Run, t: Retrial) {
    t.pick.None? && (StillHeld(run) || t.record.state != NotStarted)
  }

  lemma KeepingItsPlace(run: Run, cfg: Config, t: Retrial)
    requires OrderedData(cfg, run) && KeepsItsPlace(run, t)
    ensures !GoesBack(run, t)
  {
    if RetryProceeds(run, t) {
      RetryRepeatsIff(run, cfg, t);
      GoesBackIff(run, cfg, t);
    }
  }

  // ---------- going back repeats finished work ----------

  /** The run as a retry that goes back leaves it, waiting for the model. */
  function BackAtStep(run: Run, t: Retrial): Run {
    var r := Reopen(run, t);
    r.(machine := Executing, status := Executing, currentStep := r.currentStep + 1,
       loops := [Loop(AtModel, RetryCursor(run, t) + 1, Retrying)])
  }

  lemma ReopenKeepsModel(run: Run, cfg: Config, t: Retrial)
    requires OrderedData(cfg, run) && RetryProceeds(run, t)
    ensures Restores(run, t) || run.audit.done != [] ==> Reopen(run, t).hasModel
  {
    NewestIsHeld(run.checkpoints);
  }

  /** The new loop waits for the model on `step`, which is not after the last
      completed one. */
  predicate Reentered(run: Run, again: Run, step: nat) {
    && again.loops == [Loop(AtModel, step, Retrying)] && again.machine.Executing? && !again.abort
    && again.audit.done == run.audit.done && run.audit.done != [] && step <= LastDone(run)
  }

  lemma GoingBackReenters(cfg: Config, run: Run, t: Retrial, env: Env)
    requires Sound(run) && OrderedData(cfg, run) && run.status == Failed && GoesBack(run, t)
    requires !env.exhausted && !env.overBudget
    ensures RetryRun(cfg, run, t, env) == Ending(BackAtStep(run, t), false)
    ensures Reentered(run, RetryRun(cfg, run, t, env).run, RetryCursor(run, t) + 1)
  {
    GoesBackIff(run, cfg, t);
    ReopenKeepsModel(run, cfg, t);
    var r, loop := Reopen(run, t), Loop(AtSettle(true), RetryCursor(run, t), Retrying);
    var entry := r.(machine := Executing, status := Executing);
    assert Move(r, true, Executing) == Some(entry);
    assert LoopTop(cfg, entry, true, true, loop, env) == BeginStep(entry, loop.steps + 1);
    assert forall l: Loop :: [] + [l] == [l];
  }

  /** The model answers with neither a tool call nor a failure. */
  predicate Plain(answer: Env) {
    !answer.throws && !answer.tools && !answer.heuristic && answer.captured && answer.noise == 0
  }

  /** The run waits for the model on `step`, and a plain answer adds that step
      to those in `done`. */
  ghost predicate Completes(cfg: Config, run: Run, step: nat, answer: Env, done: seq<nat>) {
    && run.loops == [Loop(AtModel, step, Retrying)]
    && Advance(cfg, run, true, true, 0, answer).run.audit.done == done + [step]
  }

  lemma PlainAnswerCompletesStep(cfg: Config, run: Run, step: nat, answer: Env)
    requires run.loops == [Loop(AtModel, step, Retrying)] && run.machine.Executing? && !run.abort && Plain(answer)
    ensures Completes(cfg, run, step, answer, run.audit.done)
  {
    var loop := run.loops[0];
    AdvanceUnfolds(cfg, run, true, true, answer);
    assert WithNoise(cfg, run, 0) == run;
    assert ResumeLoop(cfg, run, true, true, loop, answer) == StepDone(cfg, run, true, loop, answer);
    assert ToObserving(run, true) == Some(run.(machine := Observing, status := Observing));
  }

  lemma OlderStepBreaksOrder(done: seq<nat>, step: nat)
    requires done != [] && step <= done[|done| - 1]
    ensures !Increasing(done + [step])
  {
    var longer := done + [step];
    assert longer[|done| - 1] >= longer[|done|];
  }

  lemma OlderStepIsRedone(cfg: Config, run: Run, again: Run, step: nat, answer: Env)
    requires Reentered(run, again, step) && Plain(answer)
    ensures Completes(cfg, again, step, answer, run.audit.done) && !Increasing(run.audit.done + [step])
  {
    PlainAnswerCompletesStep(cfg, again, step, answer);
    OlderStepBreaksOrder(run.audit.done, step);
  }

  /** What a retry that goes back can go on to do: with a step budget and a plain
      answer of the model it completes a step that is not after the last
      completed one. */
  lemma GoingBackRepeats(cfg: Config, run: Run, t: Retrial, env: Env, answer: Env)
    requires Sound(run) && OrderedData(cfg, run) && run.status == Failed && GoesBack(run, t)
    requires !env.exhausted && !env.overBudget && Plain(answer)
    ensures var redone := RetryCursor(run, t) + 1;
            && Completes(cfg, RetryRun(cfg, run, t, env).run, redone, answer, run.audit.done)
            && redone <= LastDone(run) && !Increasing(run.audit.done + [redone])
  {
    GoingBackReenters(cfg, run, t, env);
    OlderStepIsRedone(cfg, run, RetryRun(cfg, run, t, env).run, RetryCursor(run, t) + 1, answer);
  }

  /** Without a checkpoint to restore and with no recorded side effect, that is
      step one. */
  lemma LostRetryRedoesStepOne(cfg: Config, run: Run, t: Retrial, env: Env, answer: Env)
    requires Sound(run) && OrderedData(cfg, run) && run.status == Failed && RetryProceeds(run, t)
    requires t.pick.None? && !StillHeld(run) && t.record.state == NotStarted && !env.exhausted && !env.overBudget && Plain(answer)
    ensures Completes(cfg, RetryRun(cfg, run, t, env).run, 1, answer, run.audit.done) && !Increasing(run.audit.done + [1])
  {
    LostCheckpointCursor(run, cfg, t);
    GoingBackRepeats(cfg, run, t, env, answer);
  }

  // ---------- retries that do not go back ----------

  lemma ReopenKeepsCursor(run: Run, cfg: Config, t: Retrial)
    requires OrderedData(cfg, run) && RetryProceeds(run, t) && !GoesBack(run, t)
    ensures OrderedData(cfg, Reopen(run, t))
    ensures LastDone(run) <= RetryCursor(run, t) <= Reopen(run, t).currentStep
    ensures run.audit.done != [] ==> Reopen(run, t).hasModel
  {
    GoesBackIff(run, cfg, t);
    ReopenKeepsModel(run, cfg, t);
  }

  lemma RetryKeepsOrder(cfg: Config, run: Run, t: Retrial, env: Env)
    requires Sound(run) && Ordered(cfg, run) && run.status == Failed && RetryProceeds(run, t) && !GoesBack(run, t)
    ensures Ordered(cfg, RetryRun(cfg, run, t, env).run)
  {
    ReopenKeepsCursor(run, cfg, t);
    var r := Reopen(run, t);
    NewLoopKeepsOrder(cfg, r, r.hasModel, if r.hasModel then RetryCursor(run, t) else 0, env);
  }

  lemma EndingKeepsOrder(cfg: Config, run: Run, after: Run)
    requires Ordered(cfg, run) && EndsQuietly(run, after)
    ensures Ordered(cfg, after)
  {
  }

  lemma InterruptionsKeepOrder(cfg: Config, run: Run, active: bool, known: bool)
    requires Ordered(cfg, run)
    ensures Ordered(cfg, DeadlineFires(run, active, known).run)
    ensures Ordered(cfg, RequestCancel(run))
    ensures Ordered(cfg, FinishCancel(run, active, known).run)
  {
    var asked := run.(abort := true, deadline := false);
    EndingKeepsOrder(cfg, run, asked);
    FailRunIsQuiet(asked, active, known);
    EndingKeepsOrder(cfg, asked, FailRun(asked, active, known).run);
    CancelledRunIsQuiet(run, active, known);
    EndingKeepsOrder(cfg, run, CancelledRun(run, active, known).run.(running := false));
  }

  // ---------- the step budget ----------

  predicate BudgetedAt(cfg: Config, pc: Pc, steps: nat) {
    && (MidStep(pc) ==> 0 < steps <= cfg.maxSteps)
    && (pc.AtBudget? ==> steps < cfg.maxSteps)
  }

  /** The completed steps lie within the step budget, and so does the step that
      a loop works on. */
  ghost predicate WithinBudget(cfg: Config, run: Run) {
    && (forall d :: d in run.audit.done ==> 0 < d <= cfg.maxSteps)
    && (run.loops != [] ==> BudgetedAt(cfg, run.loops[0].pc, run.loops[0].steps))
  }

  lemma StretchStaysWithinBudget(cfg: Config, run: Run, loop: Loop, n: Next)
    requires WithinBudget(cfg, run) && run.loops == [loop]
    requires Quiet(cfg, run, loop, n) || (CompletesStep(cfg, run, loop, n) && MidStep(loop.pc))
    ensures WithinBudget(cfg, After(n, loop).run)
  {
  }

  lemma AdvanceStaysWithinBudget(cfg: Config, run: Run, active: bool, known: bool, env: Env)
    requires Sound(run) && WithinBudget(cfg, run) && Placed(run, active, known) && run.loops != []
    ensures WithinBudget(cfg, Advance(cfg, run, active, known, 0, env).run)
  {
    AdvanceUnfolds(cfg, run, active, known, env);
    var loop, r := run.loops[0], WithNoise(cfg, run, env.noise);
    if loop.pc.AtSettle? {
      SettledIsQuiet(cfg, r, active, known, loop, loop.pc.failed);
    } else {
      ResumeQuietOrCompletes(cfg, r, active, known, loop, env);
      StretchStaysWithinBudget(cfg, r, loop, ResumeLoop(cfg, r, active, known, loop, env));
    }
  }

  lemma NewLoopStaysWithinBudget(cfg: Config, run: Run, resume: bool, startStep: nat, env: Env)
    requires Entering(run) && (resume ==> run.status.Retrying?) && WithinBudget(cfg, run)
    ensures WithinBudget(cfg, WithNewLoop(cfg, run, resume, startStep, env).run)
  {
    LaunchIsQuiet(cfg, run, resume, Loop(AtSettle(true), startStep, run.machine), env);
  }

  lemma InterruptionsStayWithinBudget(cfg: Config, run: Run, active: bool, known: bool)
    requires WithinBudget(cfg, run)
    ensures WithinBudget(cfg, DeadlineFires(run, active, known).run)
    ensures WithinBudget(cfg, FinishCancel(run, active, known).run)
  {
    FailRunIsQuiet(run.(abort := true, deadline := false), active, known);
    CancelledRunIsQuiet(run, active, known);
  }
}
