// One run: its status, its control flags, its agent loops and its checkpoints.
// Every function here is one stretch of code between two awaits.
module Lifecycle {
  import opened Wrappers
  import opened RunStates
  import opened Checkpoints
  import opened Recovery

  datatype Config = Config(maxSteps: nat, maxCheckpoints: nat)

  predicate Sane(cfg: Config) {
    cfg.maxSteps > 0 && cfg.maxCheckpoints > 0
  }

  /** Where a live agent loop is suspended. */
  datatype Pc =
    | AtContext                     // building the context
    | AtModelSelect                 // selecting the model
    | AtBudget                      // looking for a cheaper model at the loop top
    | AtModel                       // first model call of a step
    | AtFailover                    // failing over or backing off after a model error
    | AtTool(heuristic: bool)       // executing tools
    | AtModelAgain(heuristic: bool) // model call with the tool results
    | AtPersist(complete: bool)     // after the step's checkpoint
    | AtOptimize(more: bool)        // checking optimisation triggers
    | AtSettle(failed: bool)        // promise settled, handlers pending

  /** `entered` is the machine state the loop was started from. */
  datatype Loop = Loop(pc: Pc, steps: nat, entered: Status)

  /** A checkpoint as recovery sees it: its step, whether it was completed, and
      whether its snapshot has a model. */
  datatype Mark = Mark(step: nat, completed: bool, model: bool)

  /** A state change the machine refused to a loop. */
  datatype Rejection = Rejection(entered: Status, status: Status)

  /** The record of what happened to a run so far. */
  datatype Audit = Audit(ends: nat, restarts: nat, forced: nat, done: seq<nat>, rejected: seq<Rejection>)

  datatype Run = Run(status: Status, machine: Status, abort: bool, running: bool, deadline: bool,
                     hasModel: bool, currentStep: nat, checkpoints: seq<Mark>, loops: seq<Loop>, audit: Audit)

  /** What the environment decides while a loop is suspended. */
  datatype Env = Env(throws: bool, exhausted: bool, overBudget: bool, answered: bool, retryable: bool,
                     recovered: bool, backoff: bool, tools: bool, toolBudget: bool, heuristic: bool,
                     moreTools: bool, complete: bool, captured: bool, modelSet: bool, noise: nat)

  /** What recovery finds when a retry is evaluated. */
  datatype Retrial = Retrial(overBudget: bool, evaluates: bool, pick: Option<nat>, code: Code, record: ToolRecord,
                             known: bool, rules: Rules, fits: bool)

  const NewRun := Run(Created, Created, false, false, false, false, 0, [], [], Audit(0, 0, 0, [], []))

  // ---------- checkpoints of the run ----------

  function Push(cfg: Config, marks: seq<Mark>, m: Mark): seq<Mark> {
    if |marks| + 1 > cfg.maxCheckpoints then (marks + [m])[1..] else marks + [m]
  }

  /** Checkpoints that other parts of the loop record; none of them is completed. */
  function Noise(cfg: Config, marks: seq<Mark>, step: nat, model: bool, n: nat): seq<Mark>
    decreases n
  {
    if n == 0 then marks
    else Noise(cfg, Push(cfg, marks, Mark(step, false, model)), step, model, n - 1)
  }

  function NewestCompleted(marks: seq<Mark>): Option<Mark> {
    if marks == [] then None
    else if marks[|marks| - 1].completed then Some(marks[|marks| - 1])
    else NewestCompleted(marks[..|marks| - 1])
  }

  // ---------- transitions ----------

  /** `known` says whether a control record can still be found for the run. */
  function Move(run: Run, known: bool, to: Status): Option<Run> {
    if !known then None
    else if run.machine == to then Some(run)
    else if !CanTransition(run.machine, to) then None
    else Some(run.(machine := to, status := to))
  }

  /** WAITING_FOR_TOOL has no edge to OBSERVING, so the way goes through EXECUTING. */
  function ToObserving(run: Run, known: bool): Option<Run> {
    if known && run.machine == WaitingForTool then
      var m := Move(run, known, Executing);
      if m.None? then None else Move(m.value, known, Observing)
    else
      Move(run, known, Observing)
  }

  // ---------- the three ways to end ----------

  /** `retired` asks the registry to move the run from live to terminal. */
  datatype Ending = Ending(run: Run, retired: bool)

  function Retire(run: Run): Ending {
    Ending(run.(running := false, deadline := false, audit := run.audit.(ends := run.audit.ends + 1)), true)
  }

  function CancelledRun(run: Run, active: bool, known: bool): Ending {
    if Terminal(run.status) || !active then Ending(run, false)
    else
      var moved := Move(run, known, Cancelled);
      if moved.Some? then Retire(moved.value)
      else Retire(run.(status := Cancelled, machine := if known then Cancelled else run.machine,
                       audit := run.audit.(forced := run.audit.forced + 1)))
  }

  function FailRun(run: Run, active: bool, known: bool): Ending {
    if Terminal(run.status) || !active then Ending(run, false)
    else if known && run.abort then CancelledRun(run, active, known)
    else
      var moved := Move(run, known, Failed);
      if moved.Some? then Retire(moved.value)
      else Retire(run.(status := Failed, machine := if known then Failed else run.machine,
                       audit := run.audit.(forced := run.audit.forced + 1)))
  }

  /** None when a transition is refused, which the caller sees as an exception. */
  function CompleteRun(run: Run, active: bool, known: bool): Option<Ending> {
    if Terminal(run.status) || !active then Some(Ending(run, false))
    else
      var routed := if run.status == Observing || run.status == WaitingForTool then Move(run, known, Executing) else Some(run);
      if routed.None? then None
      else
        var moved := Move(routed.value, known, Completed);
        if moved.None? then None else Some(Retire(moved.value))
  }

  // ---------- the agent loop ----------

  datatype Flow = Await(pc: Pc, steps: nat) | Returned | Threw

  datatype Next = Next(run: Run, retired: bool, flow: Flow)

  function Wait(run: Run, pc: Pc, steps: nat): Next {
    Next(run, false, Await(pc, steps))
  }

  function Throw(run: Run): Next {
    Next(run, false, Threw)
  }

  function Rejected(run: Run, loop: Loop): Next {
    Throw(run.(audit := run.audit.(rejected := run.audit.rejected + [Rejection(loop.entered, run.status)])))
  }

  function Return(e: Ending): Next {
    Next(e.run, e.retired, Returned)
  }

  function BeginStep(run: Run, steps: nat): Next {
    Wait(run.(currentStep := run.currentStep + 1), AtModel, steps)
  }

  function LoopTop(cfg: Config, run: Run, active: bool, known: bool, loop: Loop, env: Env): Next {
    if loop.steps < cfg.maxSteps then
      if run.abort then Return(CancelledRun(run, active, known))
      else if Terminal(run.status) then Return(Ending(run, false))
      else if env.overBudget then Wait(run, AtBudget, loop.steps)
      else BeginStep(run, loop.steps + 1)
    else
      Finish(cfg, run, active, known, loop, env)
  }

  function Finish(cfg: Config, run: Run, active: bool, known: bool, loop: Loop, env: Env): Next {
    if Terminal(run.status) || run.abort then Return(Ending(run, false))
    else if loop.steps >= cfg.maxSteps && !env.answered then Throw(run)
    else
      var done := CompleteRun(run, active, known);
      if done.None? then Rejected(run, loop) else Return(done.value)
  }

  /** The model has answered: run its tools, assist, or finish the step. */
  function ModelReturned(cfg: Config, run: Run, known: bool, loop: Loop, env: Env): Next {
    if env.tools && !run.abort && env.toolBudget then Throw(run)
    else if run.abort then Wait(run, AtOptimize(false), loop.steps)
    else if env.tools || env.heuristic then
      var moved := Move(run, known, WaitingForTool);
      if moved.None? then Rejected(run, loop) else Wait(moved.value, AtTool(!env.tools), loop.steps)
    else
      StepDone(cfg, run, known, loop, env)
  }

  function StepDone(cfg: Config, run: Run, known: bool, loop: Loop, env: Env): Next {
    var moved := ToObserving(run, known);
    if moved.None? then Rejected(run, loop)
    else
      var r := moved.value;
      Wait(if env.captured then
             r.(checkpoints := Push(cfg, r.checkpoints, Mark(loop.steps, true, r.hasModel)),
                audit := r.audit.(done := r.audit.done + [loop.steps]))
           else r,
           AtPersist(env.complete), loop.steps)
  }

  function ContextBuilt(run: Run, known: bool, loop: Loop, env: Env): Next {
    var moved := Move(run, known, ModelSelect);
    if env.throws then Throw(run)
    else if moved.None? then Rejected(run, loop)
    else Wait(moved.value, AtModelSelect, loop.steps)
  }

  function ModelSelected(cfg: Config, run: Run, active: bool, known: bool, loop: Loop, env: Env): Next {
    if env.throws then Throw(run.(hasModel := run.hasModel || env.modelSet))
    else
      var moved := Move(run.(hasModel := true), known, Executing);
      if moved.None? then Rejected(run.(hasModel := true), loop)
      else LoopTop(cfg, moved.value, active, known, loop, env)
  }

  function CheaperModelSought(run: Run, loop: Loop, env: Env): Next {
    if env.throws then Throw(run)
    else if run.abort || Terminal(run.status) then Return(Ending(run, false))
    else BeginStep(run, loop.steps + 1)
  }

  function ModelAnswered(cfg: Config, run: Run, known: bool, loop: Loop, env: Env): Next {
    if !env.throws then ModelReturned(cfg, run, known, loop, env)
    else if run.abort then Wait(run, AtOptimize(false), loop.steps)
    else if env.retryable then Wait(run, AtFailover, loop.steps)
    else Throw(run)
  }

  function FailedOver(run: Run, loop: Loop, env: Env): Next {
    if !env.recovered then Throw(run)
    else Wait(run, AtOptimize(!(env.backoff && run.abort)), loop.steps)
  }

  function ToolsExecuted(run: Run, known: bool, loop: Loop, heuristic: bool, env: Env): Next {
    if env.throws then Throw(run)
    else if env.moreTools then Wait(run, AtTool(heuristic), loop.steps)
    else
      var observed := ToObserving(run, known);
      var moved := if observed.None? then None else Move(observed.value, known, Executing);
      if moved.None? then Rejected(if observed.None? then run else observed.value, loop)
      else Wait(moved.value, AtModelAgain(heuristic), loop.steps)
  }

  function ModelContinued(cfg: Config, run: Run, known: bool, loop: Loop, heuristic: bool, env: Env): Next {
    if env.throws then Throw(run)
    else if heuristic then StepDone(cfg, run, known, loop, env)
    else ModelReturned(cfg, run, known, loop, env)
  }

  function Persisted(run: Run, active: bool, known: bool, loop: Loop, complete: bool, env: Env): Next {
    if env.throws then Throw(run)
    else if complete then
      var done := CompleteRun(run, active, known);
      if done.None? then Rejected(run, loop)
      else Next(done.value.run, done.value.retired, Await(AtOptimize(false), loop.steps))
    else
      var moved := Move(run, known, Executing);
      if moved.None? then Rejected(run, loop) else Wait(moved.value, AtOptimize(true), loop.steps)
  }

  function Optimized(cfg: Config, run: Run, active: bool, known: bool, loop: Loop, more: bool, env: Env): Next {
    if env.throws then Throw(run)
    else if !more then Finish(cfg, run, active, known, loop, env)
    else if run.abort then Return(CancelledRun(run, active, known))
    else if Terminal(run.status) then Return(Ending(run, false))
    else LoopTop(cfg, run, active, known, loop, env)
  }

  /** The rejection and completion handlers of the loop's promise. */
  function Settled(run: Run, active: bool, known: bool, failed: bool): Next {
    var e := if failed then FailRun(run, active, known) else Ending(run, false);
    Next(e.run.(running := false, deadline := if known then false else e.run.deadline), e.retired, Returned)
  }

  /** Runs a suspended loop up to its next await. */
  function ResumeLoop(cfg: Config, run: Run, active: bool, known: bool, loop: Loop, env: Env): Next {
    match loop.pc
    case AtContext => ContextBuilt(run, known, loop, env)
    case AtModelSelect => ModelSelected(cfg, run, active, known, loop, env)
    case AtBudget => CheaperModelSought(run, loop, env)
    case AtModel => ModelAnswered(cfg, run, known, loop, env)
    case AtFailover => FailedOver(run, loop, env)
    case AtTool(heuristic) => ToolsExecuted(run, known, loop, heuristic, env)
    case AtModelAgain(heuristic) => ModelContinued(cfg, run, known, loop, heuristic, env)
    case AtPersist(complete) => Persisted(run, active, known, loop, complete, env)
    case AtOptimize(more) => Optimized(cfg, run, active, known, loop, more, env)
    case AtSettle(failed) => Settled(run, active, known, failed)
  }

  /** The first stretch of a loop, from its start to its first await. */
  function Launch(cfg: Config, run: Run, active: bool, known: bool, resume: bool, loop: Loop, env: Env): Next {
    var entry := Move(run, known, if resume then Executing else Planning);
    if entry.None? then Rejected(run, loop)
    else if env.exhausted then Throw(entry.value)
    else if resume then LoopTop(cfg, entry.value, active, known, loop, env)
    else
      var moved := Move(entry.value, known, ContextBuild);
      if moved.None? then Rejected(entry.value, loop) else Wait(moved.value, AtContext, loop.steps)
  }

  function Suspended(n: Next, loop: Loop): Loop {
    match n.flow
    case Await(pc, steps) => loop.(pc := pc, steps := steps)
    case Returned => loop.(pc := AtSettle(false))
    case Threw => loop.(pc := AtSettle(true))
  }

  // ---------- what callers and timers do ----------

  predicate StartAllowed(run: Run, active: bool, live: bool, terminal: bool) {
    !terminal && active && live && !Terminal(run.status) && !run.running
  }

  /** Starts a loop on a run whose flags are already set for it. */
  function WithNewLoop(cfg: Config, run: Run, resume: bool, startStep: nat, env: Env): Ending {
    var loop := Loop(AtSettle(true), startStep, run.machine);
    var n := Launch(cfg, run, true, true, resume, loop, env);
    Ending(n.run.(loops := run.loops + [Suspended(n, loop)]), n.retired)
  }

  function StartRun(cfg: Config, run: Run, env: Env): Ending {
    WithNewLoop(cfg, run.(running := true, abort := false, deadline := true), false, 0, env)
  }

  /** Checkpoints recorded by the awaited call itself. */
  function WithNoise(cfg: Config, run: Run, n: nat): Run {
    run.(checkpoints := Noise(cfg, run.checkpoints, run.currentStep, run.hasModel, n))
  }

  /** Resumes the i-th loop; a settled loop disappears. */
  function Advance(cfg: Config, run: Run, active: bool, known: bool, i: nat, env: Env): Ending
    requires i < |run.loops|
  {
    var loop := run.loops[i];
    var n := ResumeLoop(cfg, WithNoise(cfg, run, env.noise), active, known, loop, env);
    Ending(n.run.(loops := if loop.pc.AtSettle? then run.loops[..i] + run.loops[i + 1..]
                           else run.loops[i := Suspended(n, loop)]),
           n.retired)
  }

  function DeadlineFires(run: Run, active: bool, known: bool): Ending {
    FailRun(run.(abort := true, deadline := false), active, known)
  }

  function RequestCancel(run: Run): Run {
    run.(abort := true, deadline := false)
  }

  /** The second half of a cancellation, after its wait. */
  function FinishCancel(run: Run, active: bool, known: bool): Ending {
    var e := CancelledRun(run, active, known);
    Ending(e.run.(running := false), e.retired)
  }

  function CodeOf(raw: Option<Mark>, code: Code): Code {
    if raw.None? then Missing
    else if !raw.value.completed then (if code in {BadShape, RunMismatch, BadVersion} then code else Incomplete)
    else if code == Missing || code == Incomplete then Usable
    else code
  }

  function SourceOf(run: Run, t: Retrial): Option<Mark> {
    match t.pick
    case None => NewestCompleted(run.checkpoints)
    case Some(i) => if i < |run.checkpoints| then Some(run.checkpoints[i]) else None
  }

  function PlanFor(run: Run, t: Retrial): Plan {
    var raw := SourceOf(run, t);
    PlanRecovery(CodeOf(raw, t.code), if raw.Some? then Some(raw.value.step) else None, t.record, t.known, t.rules)
  }

  /** The retry goes ahead: recovery evaluates, the plan does not refuse, and
      a usable checkpoint also fits. */
  predicate RetryProceeds(run: Run, t: Retrial) {
    t.evaluates && !Refuses(PlanFor(run, t).action) && (Restores(run, t) ==> t.fits)
  }

  predicate Restores(run: Run, t: Retrial) {
    CodeOf(SourceOf(run, t), t.code) == Usable
  }

  /** The step the new loop continues after; with no cursor in the plan, the
      live one. */
  function RetryCursor(run: Run, t: Retrial): nat {
    var plan := PlanFor(run, t);
    if plan.cursor.None? then run.currentStep else if plan.cursor.value >= 0 then plan.cursor.value else 0
  }

  /** The run as recovery hands it to its new loop. */
  function Reopen(run: Run, t: Retrial): Run {
    var raw, restored := SourceOf(run, t), Restores(run, t);
    var moved := Move(run, true, Retrying);
    var m := if moved.Some? then moved.value
             else run.(status := Retrying, audit := run.audit.(forced := run.audit.forced + 1));
    m.(abort := false, running := true, deadline := true,
       hasModel := if restored then raw.value.model else run.hasModel,
       currentStep := if restored then raw.value.step else run.currentStep,
       audit := m.audit.(restarts := m.audit.restarts + 1))
  }

  function RetryRun(cfg: Config, run: Run, t: Retrial, env: Env): Ending
    requires RetryProceeds(run, t)
  {
    var r := Reopen(run, t);
    WithNewLoop(cfg, r, r.hasModel, if r.hasModel then RetryCursor(run, t) else 0, env)
  }
}
