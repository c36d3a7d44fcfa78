// How a stretch of the agent loop ends: exactly when it completes, cancels or
// fails the run, throws, begins a step, runs tools or finishes a step.
module Outcomes {
  import opened Wrappers
  import opened RunStates
  import opened Lifecycle
  import opened LifecycleSafety

  /** A run whose only loop is suspended and that has not ended. */
  ghost predicate LiveLoop(run: Run, loop: Loop) {
    Sound(run) && !Terminal(run.status) && run.loops == [loop]
  }

  // ---------- each stretch of a live loop, with its transitions carried out ----------

  function Into(run: Run, to: Status): Run {
    run.(status := to, machine := to)
  }

  lemma FinishGoes(cfg: Config, run: Run, loop: Loop, env: Env)
    requires run.machine == run.status == Executing
    ensures Finish(cfg, run, true, true, loop, env)
            == if run.abort then Return(Ending(run, false))
               else if loop.steps >= cfg.maxSteps && !env.answered then Throw(run)
               else Return(Retire(Into(run, Completed)))
  {
  }

  lemma TopGoes(cfg: Config, run: Run, loop: Loop, env: Env)
    requires run.machine == run.status == Executing
    ensures LoopTop(cfg, run, true, true, loop, env)
            == if loop.steps >= cfg.maxSteps then Finish(cfg, run, true, true, loop, env)
               else if run.abort then Return(Retire(Into(run, Cancelled)))
               else if env.overBudget then Wait(run, AtBudget, loop.steps)
               else Wait(run.(currentStep := run.currentStep + 1), AtModel, loop.steps + 1)
  {
  }

  lemma SelectionGoes(cfg: Config, run: Run, loop: Loop, env: Env)
    requires LiveLoop(run, loop) && loop.pc.AtModelSelect?
    ensures ResumeLoop(cfg, run, true, true, loop, env)
            == if env.throws then Throw(run.(hasModel := run.hasModel || env.modelSet))
               else LoopTop(cfg, Into(run.(hasModel := true), Executing), true, true, loop, env)
  {
  }

  lemma OptimizedGoes(cfg: Config, run: Run, loop: Loop, env: Env)
    requires LiveLoop(run, loop) && loop.pc.AtOptimize?
    ensures ResumeLoop(cfg, run, true, true, loop, env)
            == if env.throws then Throw(run)
               else if !loop.pc.more then Finish(cfg, run, true, true, loop, env)
               else if run.abort then Return(Retire(Into(run, Cancelled)))
               else LoopTop(cfg, run, true, true, loop, env)
  {
  }

  lemma PersistedGoes(cfg: Config, run: Run, loop: Loop, env: Env)
    requires LiveLoop(run, loop) && loop.pc.AtPersist?
    ensures ResumeLoop(cfg, run, true, true, loop, env)
            == if env.throws then Throw(run)
               else if loop.pc.complete then
                 Next(Retire(Into(run, Completed)).run, true, Await(AtOptimize(false), loop.steps))
               else Wait(Into(run, Executing), AtOptimize(true), loop.steps)
  {
  }

  lemma SettledGoes(cfg: Config, run: Run, loop: Loop, env: Env)
    requires LiveLoop(run, loop) && loop.pc.AtSettle?
    ensures var n := ResumeLoop(cfg, run, true, true, loop, env);
            n.flow.Returned? && n.run.status == if !loop.pc.failed then run.status else if run.abort then Cancelled else Failed
  {
  }

  lemma DoneGoes(cfg: Config, run: Run, loop: Loop, env: Env)
    requires LiveLoop(run, loop) && AsksModel(loop.pc)
    ensures StepDone(cfg, run, true, loop, env)
            == Wait(if env.captured then
                      Into(run, Observing).(checkpoints := Push(cfg, run.checkpoints, Mark(loop.steps, true, run.hasModel)),
                                            audit := run.audit.(done := run.audit.done + [loop.steps]))
                    else Into(run, Observing),
                    AtPersist(env.complete), loop.steps)
  {
    assert ToObserving(run, true) == Some(Into(run, Observing));
  }

  lemma AnswerGoes(cfg: Config, run: Run, loop: Loop, env: Env)
    requires LiveLoop(run, loop) && AsksModel(loop.pc)
    ensures ModelReturned(cfg, run, true, loop, env)
            == if env.tools && !run.abort && env.toolBudget then Throw(run)
               else if run.abort then Wait(run, AtOptimize(false), loop.steps)
               else if env.tools || env.heuristic then Wait(Into(run, WaitingForTool), AtTool(!env.tools), loop.steps)
               else StepDone(cfg, run, true, loop, env)
  {
  }

  lemma ToolsGo(cfg: Config, run: Run, loop: Loop, env: Env)
    requires LiveLoop(run, loop) && loop.pc.AtTool?
    ensures ResumeLoop(cfg, run, true, true, loop, env)
            == if env.throws then Throw(run)
               else if env.moreTools then Wait(run, loop.pc, loop.steps)
               else Wait(Into(run, Executing), AtModelAgain(loop.pc.heuristic), loop.steps)
  {
    assert ToObserving(run, true) == Some(Into(run, Observing));
    assert Move(Into(run, Observing), true, Executing) == Some(Into(run, Executing));
  }

  lemma OthersGo(cfg: Config, run: Run, loop: Loop, env: Env)
    requires LiveLoop(run, loop)
    ensures loop.pc.AtContext? ==>
              ResumeLoop(cfg, run, true, true, loop, env)
              == if env.throws then Throw(run) else Wait(Into(run, ModelSelect), AtModelSelect, loop.steps)
    ensures loop.pc.AtBudget? ==>
              ResumeLoop(cfg, run, true, true, loop, env)
              == if env.throws then Throw(run)
                 else if run.abort then Return(Ending(run, false))
                 else Wait(run.(currentStep := run.currentStep + 1), AtModel, loop.steps + 1)
    ensures loop.pc.AtFailover? ==>
              ResumeLoop(cfg, run, true, true, loop, env)
              == if !env.recovered then Throw(run) else Wait(run, AtOptimize(!(env.backoff && run.abort)), loop.steps)
  {
  }

  /** A new run that is started waits for its context, or its loop has thrown
      because the run's time is used up. */
  lemma StartGoes(cfg: Config, run: Run, env: Env)
    requires run.status == run.machine == Created && run.loops == []
    ensures var t := StartRun(cfg, run, env);
            && !t.retired && t.run.running && t.run.deadline && !t.run.abort && t.run.audit == run.audit
            && t.run.status == (if env.exhausted then Planning else ContextBuild)
            && t.run.loops == [Loop(if env.exhausted then AtSettle(true) else AtContext, 0, Created)]
  {
  }

  // ---------- the table of outcomes ----------

  /** What a stretch leads to: the run's state, where the loop waits next and on
      which step, whether the run is retired, and its completed steps. */
  datatype Outcome = Outcome(status: Status, pc: Pc, steps: nat, retired: bool, done: seq<nat>, currentStep: nat)

  function OutcomeOf(n: Next, loop: Loop): Outcome {
    var l := Suspended(n, loop);
    Outcome(n.run.status, l.pc, l.steps, n.retired, n.run.audit.done, n.run.currentStep)
  }

  function Stays(run: Run, loop: Loop, status: Status, pc: Pc): Outcome {
    Outcome(status, pc, loop.steps, false, run.audit.done, run.currentStep)
  }

  function Ends(run: Run, loop: Loop, status: Status, pc: Pc): Outcome {
    Outcome(status, pc, loop.steps, true, run.audit.done, run.currentStep)
  }

  function Raises(run: Run, loop: Loop): Outcome {
    Stays(run, loop, run.status, AtSettle(true))
  }

  function Begins(run: Run, loop: Loop): Outcome {
    Outcome(Executing, AtModel, loop.steps + 1, false, run.audit.done, run.currentStep + 1)
  }

  function LeftTable(cfg: Config, run: Run, loop: Loop, env: Env): Outcome {
    if run.abort then Stays(run, loop, Executing, AtSettle(false))
    else if loop.steps >= cfg.maxSteps && !env.answered then Stays(run, loop, Executing, AtSettle(true))
    else Ends(run, loop, Completed, AtSettle(false))
  }

  function TopTable(cfg: Config, run: Run, loop: Loop, env: Env): Outcome {
    if loop.steps >= cfg.maxSteps then LeftTable(cfg, run, loop, env)
    else if run.abort then Ends(run, loop, Cancelled, AtSettle(false))
    else if env.overBudget then Stays(run, loop, Executing, AtBudget)
    else Begins(run, loop)
  }

  function FinishedTable(run: Run, loop: Loop, env: Env): Outcome {
    Outcome(Observing, AtPersist(env.complete), loop.steps, false,
            if env.captured then run.audit.done + [loop.steps] else run.audit.done, run.currentStep)
  }

  function AnswerTable(run: Run, loop: Loop, env: Env): Outcome {
    if run.abort then Stays(run, loop, Executing, AtOptimize(false))
    else if env.tools && env.toolBudget then Raises(run, loop)
    else if env.tools || env.heuristic then Stays(run, loop, WaitingForTool, AtTool(!env.tools))
    else FinishedTable(run, loop, env)
  }

  /** For every await of a live loop, what its next stretch leads to. */
  function Table(cfg: Config, run: Run, loop: Loop, env: Env): Outcome {
    match loop.pc
    case AtContext => if env.throws then Raises(run, loop) else Stays(run, loop, ModelSelect, AtModelSelect)
    case AtModelSelect => if env.throws then Raises(run, loop) else TopTable(cfg, run, loop, env)
    case AtBudget =>
      if env.throws then Raises(run, loop)
      else if run.abort then Stays(run, loop, Executing, AtSettle(false))
      else Begins(run, loop)
    case AtModel =>
      if !env.throws then AnswerTable(run, loop, env)
      else if run.abort then Stays(run, loop, Executing, AtOptimize(false))
      else if env.retryable then Stays(run, loop, Executing, AtFailover)
      else Raises(run, loop)
    case AtFailover =>
      if env.recovered then Stays(run, loop, Executing, AtOptimize(!(env.backoff && run.abort))) else Raises(run, loop)
    case AtTool(heuristic) =>
      if env.throws then Raises(run, loop)
      else if env.moreTools then Stays(run, loop, WaitingForTool, AtTool(heuristic))
      else Stays(run, loop, Executing, AtModelAgain(heuristic))
    case AtModelAgain(heuristic) =>
      if env.throws then Raises(run, loop)
      else if heuristic then FinishedTable(run, loop, env)
      else AnswerTable(run, loop, env)
    case AtPersist(complete) =>
      if env.throws then Raises(run, loop)
      else if complete then Ends(run, loop, Completed, AtOptimize(false))
      else Stays(run, loop, Executing, AtOptimize(true))
    case AtOptimize(more) =>
      if env.throws then Raises(run, loop)
      else if !more then LeftTable(cfg, run, loop, env)
      else if run.abort then Ends(run, loop, Cancelled, AtSettle(false))
      else TopTable(cfg, run, loop, env)
    case AtSettle(failed) =>
      if failed then Ends(run, loop, if run.abort then Cancelled else Failed, AtSettle(false))
      else Stays(run, loop, run.status, AtSettle(false))
  }

  lemma TopFollowsTable(cfg: Config, run: Run, loop: Loop, env: Env)
    requires LiveLoop(run, loop) && (loop.pc.AtModelSelect? || loop.pc.AtOptimize?)
    ensures OutcomeOf(ResumeLoop(cfg, run, true, true, loop, env), loop) == Table(cfg, run, loop, env)
  {
    var r := if loop.pc.AtModelSelect? then Into(run.(hasModel := true), Executing) else run;
    if loop.pc.AtModelSelect? {
      SelectionGoes(cfg, run, loop, env);
    } else {
      OptimizedGoes(cfg, run, loop, env);
    }
    TopGoes(cfg, r, loop, env);
    FinishGoes(cfg, r, loop, env);
  }

  lemma AnswerFollowsTable(cfg: Config, run: Run, loop: Loop, env: Env)
    requires LiveLoop(run, loop) && AsksModel(loop.pc)
    ensures OutcomeOf(ResumeLoop(cfg, run, true, true, loop, env), loop) == Table(cfg, run, loop, env)
  {
    AnswerGoes(cfg, run, loop, env);
    DoneGoes(cfg, run, loop, env);
  }

  /** The stretches of the code do what the table says. */
  lemma StretchFollowsTable(cfg: Config, run: Run, loop: Loop, env: Env)
    requires LiveLoop(run, loop)
    ensures OutcomeOf(ResumeLoop(cfg, run, true, true, loop, env), loop) == Table(cfg, run, loop, env)
  {
    match loop.pc
    case AtContext | AtBudget | AtFailover => OthersGo(cfg, run, loop, env);
    case AtModelSelect | AtOptimize(_) => TopFollowsTable(cfg, run, loop, env);
    case AtModel | AtModelAgain(_) => AnswerFollowsTable(cfg, run, loop, env);
    case AtTool(_) => ToolsGo(cfg, run, loop, env);
    case AtPersist(_) => PersistedGoes(cfg, run, loop, env);
    case AtSettle(_) => SettledGoes(cfg, run, loop, env);
  }

  // ---------- exactly when ----------

  /** The step is persisted and its answer was final. */
  predicate FinalAnswer(loop: Loop, env: Env) {
    loop.pc == AtPersist(true) && !env.throws
  }

  /** The stretch goes past the last iteration of the loop. */
  predicate LeavesLoop(cfg: Config, run: Run, loop: Loop, env: Env) {
    && !env.throws && !run.abort
    && (|| loop.pc == AtOptimize(false)
        || ((loop.pc == AtOptimize(true) || loop.pc == AtModelSelect) && loop.steps >= cfg.maxSteps))
  }

  /** At the step limit an answer is needed. */
  predicate HasAnswer(cfg: Config, loop: Loop, env: Env) {
    loop.steps < cfg.maxSteps || env.answered
  }

  /** A stretch completes its run exactly after a final answer, or when the loop
      is left with an answer. */
  lemma CompletesIff(cfg: Config, run: Run, loop: Loop, env: Env)
    requires !Terminal(run.status)
    ensures Table(cfg, run, loop, env).status == Completed <==>
              FinalAnswer(loop, env) || (LeavesLoop(cfg, run, loop, env) && HasAnswer(cfg, loop, env))
  {
  }

  /** It fails its run exactly when the loop has thrown and no stop was asked for. */
  lemma FailsIff(cfg: Config, run: Run, loop: Loop, env: Env)
    requires !Terminal(run.status)
    ensures Table(cfg, run, loop, env).status == Failed <==> loop.pc == AtSettle(true) && !run.abort
  {
  }

  /** The loop has thrown, or is about to go round again. */
  predicate StopsOrGoesRound(cfg: Config, loop: Loop, env: Env) {
    || loop.pc == AtSettle(true)
    || (!env.throws && (loop.pc == AtOptimize(true) || (loop.pc == AtModelSelect && loop.steps < cfg.maxSteps)))
  }

  /** It cancels its run exactly when a stop was asked for and the loop is about
      to go round again, or has thrown. */
  lemma CancelsIff(cfg: Config, run: Run, loop: Loop, env: Env)
    requires !Terminal(run.status)
    ensures Table(cfg, run, loop, env).status == Cancelled <==> run.abort && StopsOrGoesRound(cfg, loop, env)
  {
  }

  predicate AsksModel(pc: Pc) {
    pc.AtModel? || pc.AtModelAgain?
  }

  /** The model call or its answer ends the loop in an exception. */
  predicate ModelRaises(run: Run, loop: Loop, env: Env) {
    || (env.throws && (loop.pc.AtModelAgain? || (!run.abort && !env.retryable)))
    || (!env.throws && loop.pc != AtModelAgain(true) && env.tools && !run.abort && env.toolBudget)
  }

  /** A loop throws exactly when what it awaits throws and that is not a model
      error to be retried or met by a stop, when the tool budget is spent, when
      no other model is found, or at the step limit without an answer. */
  lemma ThrowsIff(cfg: Config, run: Run, loop: Loop, env: Env)
    requires !loop.pc.AtSettle?
    ensures Table(cfg, run, loop, env).pc == AtSettle(true) <==>
              if AsksModel(loop.pc) then ModelRaises(run, loop, env)
              else if loop.pc.AtFailover? then !env.recovered
              else env.throws || (LeavesLoop(cfg, run, loop, env) && !HasAnswer(cfg, loop, env))
  {
  }

  /** The loop comes to the top of an iteration with steps left. */
  predicate AtTopWithSteps(cfg: Config, run: Run, loop: Loop, env: Env) {
    !env.throws && !run.abort && loop.steps < cfg.maxSteps && (loop.pc == AtOptimize(true) || loop.pc == AtModelSelect)
  }

  /** A step begins exactly at the top of an iteration within the budget, or once
      a cheaper model has been found, which is looked for exactly over budget. */
  ghost predicate BeginsExactly(cfg: Config, run: Run, loop: Loop, env: Env) {
    && (Table(cfg, run, loop, env).pc.AtModel? <==>
          (AtTopWithSteps(cfg, run, loop, env) && !env.overBudget) || (loop.pc.AtBudget? && !env.throws && !run.abort))
    && (Table(cfg, run, loop, env).pc.AtBudget? <==> AtTopWithSteps(cfg, run, loop, env) && env.overBudget)
  }

  lemma BeginsExactlyAsking(cfg: Config, run: Run, loop: Loop, env: Env)
    requires AsksModel(loop.pc)
    ensures BeginsExactly(cfg, run, loop, env)
  {
  }

  lemma BeginsExactlyAtTop(cfg: Config, run: Run, loop: Loop, env: Env)
    requires loop.pc.AtModelSelect? || loop.pc.AtOptimize?
    ensures BeginsExactly(cfg, run, loop, env)
  {
  }

  lemma BeginsExactlyElsewhere(cfg: Config, run: Run, loop: Loop, env: Env)
    requires !AsksModel(loop.pc) && !loop.pc.AtModelSelect? && !loop.pc.AtOptimize?
    ensures BeginsExactly(cfg, run, loop, env)
  {
  }

  lemma BeginsStepIff(cfg: Config, run: Run, loop: Loop, env: Env)
    ensures BeginsExactly(cfg, run, loop, env)
  {
    if AsksModel(loop.pc) {
      BeginsExactlyAsking(cfg, run, loop, env);
    } else if loop.pc.AtModelSelect? || loop.pc.AtOptimize? {
      BeginsExactlyAtTop(cfg, run, loop, env);
    } else {
      BeginsExactlyElsewhere(cfg, run, loop, env);
    }
  }

  /** A step that begins has the next number, and moves the live cursor. */
  ghost predicate CountsSteps(cfg: Config, run: Run, loop: Loop, env: Env) {
    var o := Table(cfg, run, loop, env);
    if o.pc.AtModel? then o.steps == loop.steps + 1 && o.currentStep == run.currentStep + 1
    else o.steps == loop.steps && o.currentStep == run.currentStep
  }

  lemma CountsStepsAsking(cfg: Config, run: Run, loop: Loop, env: Env)
    requires AsksModel(loop.pc)
    ensures CountsSteps(cfg, run, loop, env)
  {
  }

  lemma CountsStepsAtTop(cfg: Config, run: Run, loop: Loop, env: Env)
    requires loop.pc.AtModelSelect? || loop.pc.AtOptimize?
    ensures CountsSteps(cfg, run, loop, env)
  {
  }

  lemma CountsStepsElsewhere(cfg: Config, run: Run, loop: Loop, env: Env)
    requires !AsksModel(loop.pc) && !loop.pc.AtModelSelect? && !loop.pc.AtOptimize?
    ensures CountsSteps(cfg, run, loop, env)
  {
  }

  lemma StepsAreCounted(cfg: Config, run: Run, loop: Loop, env: Env)
    ensures CountsSteps(cfg, run, loop, env)
  {
    if AsksModel(loop.pc) {
      CountsStepsAsking(cfg, run, loop, env);
    } else if loop.pc.AtModelSelect? || loop.pc.AtOptimize? {
      CountsStepsAtTop(cfg, run, loop, env);
    } else {
      CountsStepsElsewhere(cfg, run, loop, env);
    }
  }

  /** The model has answered, and neither a stop nor the tool budget is in the way. */
  predicate Answered(run: Run, loop: Loop, env: Env) {
    AsksModel(loop.pc) && loop.pc != AtModelAgain(true) && !env.throws && !run.abort && !(env.tools && env.toolBudget)
  }

  /** Tools run exactly when the answer calls for them or the assist does, and
      then until there are no more; the model is asked again after the last. */
  lemma RunsToolsIff(cfg: Config, run: Run, loop: Loop, env: Env)
    ensures Table(cfg, run, loop, env).pc.AtTool? <==>
              (Answered(run, loop, env) && (env.tools || env.heuristic)) || (loop.pc.AtTool? && !env.throws && env.moreTools)
    ensures Table(cfg, run, loop, env).pc.AtModelAgain? <==> loop.pc.AtTool? && !env.throws && !env.moreTools
    ensures Table(cfg, run, loop, env).pc.AtTool? && !loop.pc.AtTool? ==> Table(cfg, run, loop, env).pc == AtTool(!env.tools)
    ensures loop.pc.AtTool? && Table(cfg, run, loop, env).pc.AtTool? ==> Table(cfg, run, loop, env).pc == loop.pc
    ensures Table(cfg, run, loop, env).pc.AtModelAgain? ==> Table(cfg, run, loop, env).pc.heuristic == loop.pc.heuristic
  {
  }

  /** The model's answer calls for nothing more. */
  predicate StepFinished(run: Run, loop: Loop, env: Env) {
    || (Answered(run, loop, env) && !env.tools && !env.heuristic)
    || (loop.pc == AtModelAgain(true) && !env.throws)
  }

  /** A step is finished exactly then; it is persisted as final exactly when the
      completion contract is met, and recorded exactly when its checkpoint is. */
  ghost predicate FinishesExactly(cfg: Config, run: Run, loop: Loop, env: Env) {
    && (Table(cfg, run, loop, env).pc.AtPersist? <==> StepFinished(run, loop, env))
    && (StepFinished(run, loop, env) ==> Table(cfg, run, loop, env).pc == AtPersist(env.complete))
    && (Table(cfg, run, loop, env).done
          == if StepFinished(run, loop, env) && env.captured then run.audit.done + [loop.steps] else run.audit.done)
  }

  lemma FinishesExactlyAsking(cfg: Config, run: Run, loop: Loop, env: Env)
    requires AsksModel(loop.pc)
    ensures FinishesExactly(cfg, run, loop, env)
  {
  }

  lemma FinishesExactlyAtTop(cfg: Config, run: Run, loop: Loop, env: Env)
    requires loop.pc.AtModelSelect? || loop.pc.AtOptimize?
    ensures FinishesExactly(cfg, run, loop, env)
  {
  }

  lemma FinishesExactlyElsewhere(cfg: Config, run: Run, loop: Loop, env: Env)
    requires !AsksModel(loop.pc) && !loop.pc.AtModelSelect? && !loop.pc.AtOptimize?
    ensures FinishesExactly(cfg, run, loop, env)
  {
  }

  lemma FinishesStepIff(cfg: Config, run: Run, loop: Loop, env: Env)
    ensures FinishesExactly(cfg, run, loop, env)
  {
    if AsksModel(loop.pc) {
      FinishesExactlyAsking(cfg, run, loop, env);
    } else if loop.pc.AtModelSelect? || loop.pc.AtOptimize? {
      FinishesExactlyAtTop(cfg, run, loop, env);
    } else {
      FinishesExactlyElsewhere(cfg, run, loop, env);
    }
  }

  /** The model is selected exactly once the context is built. */
  lemma SelectsModelIff(cfg: Config, run: Run, loop: Loop, env: Env)
    ensures Table(cfg, run, loop, env).pc.AtModelSelect? <==> loop.pc.AtContext? && !env.throws
  {
  }

  /** Another model is looked for exactly after an error of the model that may be
      retried, unless a stop was asked for. */
  lemma FailsOverIff(cfg: Config, run: Run, loop: Loop, env: Env)
    ensures Table(cfg, run, loop, env).pc.AtFailover? <==> loop.pc.AtModel? && env.throws && !run.abort && env.retryable
  {
  }

  /** The step is over, with or without another one to come, exactly then. */
  lemma StepIsOverIff(cfg: Config, run: Run, loop: Loop, env: Env)
    ensures Table(cfg, run, loop, env).pc == AtOptimize(true) <==>
              || (loop.pc == AtPersist(false) && !env.throws)
              || (loop.pc.AtFailover? && env.recovered && !(env.backoff && run.abort))
    ensures Table(cfg, run, loop, env).pc == AtOptimize(false) <==>
              || FinalAnswer(loop, env)
              || (AsksModel(loop.pc) && run.abort && loop.pc != AtModelAgain(true) && (loop.pc.AtModel? || !env.throws))
              || (loop.pc.AtFailover? && env.recovered && env.backoff && run.abort)
  {
  }

  // ---------- flags and checkpoints ----------

  /** A stretch never touches the stop that was asked for; it sets a model only where
      one is selected, disarms the deadline and stops running exactly when the run is
      retired or its loop settles, and records a checkpoint, completed and with the
      loop's step, exactly when a step is finished and captured. */
  ghost predicate FlagsAre(cfg: Config, run: Run, loop: Loop, env: Env, n: Next) {
    var over := n.retired || loop.pc.AtSettle?;
    && n.run.abort == run.abort
    && n.run.hasModel == (run.hasModel || (loop.pc.AtModelSelect? && (!env.throws || env.modelSet)))
    && n.run.running == (run.running && !over)
    && n.run.deadline == (run.deadline && !over)
    && n.run.checkpoints == if StepFinished(run, loop, env) && env.captured
                            then Push(cfg, run.checkpoints, Mark(loop.steps, true, run.hasModel))
                            else run.checkpoints
  }

  lemma FlagsAtTop(cfg: Config, run: Run, loop: Loop, env: Env)
    requires LiveLoop(run, loop) && (loop.pc.AtModelSelect? || loop.pc.AtOptimize?)
    ensures FlagsAre(cfg, run, loop, env, ResumeLoop(cfg, run, true, true, loop, env))
  {
    var r := if loop.pc.AtModelSelect? then Into(run.(hasModel := true), Executing) else run;
    if loop.pc.AtModelSelect? {
      SelectionGoes(cfg, run, loop, env);
    } else {
      OptimizedGoes(cfg, run, loop, env);
    }
    TopGoes(cfg, r, loop, env);
    FinishGoes(cfg, r, loop, env);
  }

  lemma FlagsWhileAsking(cfg: Config, run: Run, loop: Loop, env: Env)
    requires LiveLoop(run, loop) && AsksModel(loop.pc)
    ensures FlagsAre(cfg, run, loop, env, ResumeLoop(cfg, run, true, true, loop, env))
  {
    AnswerGoes(cfg, run, loop, env);
    DoneGoes(cfg, run, loop, env);
  }

  lemma FlagsWhenSettled(cfg: Config, run: Run, loop: Loop, env: Env)
    requires LiveLoop(run, loop) && loop.pc.AtSettle?
    ensures FlagsAre(cfg, run, loop, env, ResumeLoop(cfg, run, true, true, loop, env))
  {
  }

  /** So for every stretch of a live loop. */
  lemma StretchSetsFlags(cfg: Config, run: Run, loop: Loop, env: Env)
    requires LiveLoop(run, loop)
    ensures FlagsAre(cfg, run, loop, env, ResumeLoop(cfg, run, true, true, loop, env))
  {
    match loop.pc
    case AtContext | AtBudget | AtFailover => OthersGo(cfg, run, loop, env);
    case AtModelSelect | AtOptimize(_) => FlagsAtTop(cfg, run, loop, env);
    case AtModel | AtModelAgain(_) => FlagsWhileAsking(cfg, run, loop, env);
    case AtTool(_) => ToolsGo(cfg, run, loop, env);
    case AtPersist(_) => PersistedGoes(cfg, run, loop, env);
    case AtSettle(_) => FlagsWhenSettled(cfg, run, loop, env);
  }

  // ---------- the same for a whole run ----------

  lemma AdvanceStatus(cfg: Config, run: Run, env: Env)
    requires Sound(run) && !Terminal(run.status) && run.loops != []
    ensures Advance(cfg, run, true, true, 0, env).run.status == Table(cfg, WithNoise(cfg, run, env.noise), run.loops[0], env).status
  {
    AdvanceUnfolds(cfg, run, true, true, env);
    StretchFollowsTable(cfg, WithNoise(cfg, run, env.noise), run.loops[0], env);
  }

  /** The status of a live run after its loop was resumed: exactly when it has ended,
      and how. */
  ghost predicate EndsAs(cfg: Config, run: Run, loop: Loop, env: Env, status: Status) {
    && (status == Completed <==> FinalAnswer(loop, env) || (LeavesLoop(cfg, run, loop, env) && HasAnswer(cfg, loop, env)))
    && (status == Failed <==> loop.pc == AtSettle(true) && !run.abort)
    && (status == Cancelled <==> run.abort && StopsOrGoesRound(cfg, loop, env))
  }

  lemma LoopEnds(cfg: Config, run: Run, env: Env)
    requires Sound(run) && !Terminal(run.status) && run.loops != []
    ensures EndsAs(cfg, run, run.loops[0], env, Advance(cfg, run, true, true, 0, env).run.status)
  {
    var loop, noisy := run.loops[0], WithNoise(cfg, run, env.noise);
    AdvanceStatus(cfg, run, env);
    CompletesIff(cfg, noisy, loop, env);
    FailsIff(cfg, noisy, loop, env);
    CancelsIff(cfg, noisy, loop, env);
  }

  /** A run whose finished step has been persisted ends, COMPLETED, exactly when
      the completion contract was met; otherwise it goes round again. */
  lemma PersistedRunEndsIff(cfg: Config, run: Run, complete: bool, steps: nat, entered: Status, env: Env)
    requires Sound(run) && !Terminal(run.status) && run.loops == [Loop(AtPersist(complete), steps, entered)] && !env.throws
    ensures var t := Advance(cfg, run, true, true, 0, env);
            && (t.run.status == Completed <==> complete)
            && (t.retired <==> complete)
            && t.run.audit.ends == run.audit.ends + (if complete then 1 else 0)
            && (!complete ==> t.run.status == Executing)
            && t.run.loops == [Loop(AtOptimize(!complete), steps, entered)]
  {
    AdvanceUnfolds(cfg, run, true, true, env);
    PersistedGoes(cfg, WithNoise(cfg, run, env.noise), run.loops[0], env);
  }
}
