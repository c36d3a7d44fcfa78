// Turning a failure and its durable signals into a recovery plan, and carrying
// the plan out on a run's live objects.
module Recovery {
  import opened Wrappers
  import opened RunStates
  import opened Checkpoints

  datatype EffectState = NotStarted | InFlight | Done | FailedEffect | UnknownEffect

  /** The last known side effect of a run. */
  datatype ToolRecord = ToolRecord(state: EffectState, key: Option<Name>, destructive: bool,
                                   idempotent: bool, retryable: bool)

  datatype Decision = Skip | Resume | Retry | Rollback | MarkUnknown | AskUser | Unrecognised

  /** What the decision rules are shown. */
  datatype Evidence = Evidence(checkpointStep: Option<int>, record: ToolRecord, knownCompleted: bool)

  datatype Action = ResumeRun | RetryStep | SkipCompleted | Ask | LeaveUnknown | Unrecoverable

  datatype Plan = Plan(action: Action, cursor: Option<int>)

  /** The decision rules are an arbitrary function; None when they are unavailable. */
  type Rules = Option<Evidence -> Decision>

  predicate Refuses(a: Action) {
    a == Ask || a == LeaveUnknown || a == Unrecoverable
  }

  function ToPlan(d: Decision, cursor: Option<int>): Plan {
    match d
    case Skip => Plan(SkipCompleted, cursor)
    case Resume => Plan(ResumeRun, cursor)
    case Retry => Plan(RetryStep, cursor)
    case MarkUnknown => Plan(LeaveUnknown, cursor)
    case _ => Plan(Ask, cursor)
  }

  function PlanRecovery(code: Code, step: Option<int>, record: ToolRecord, knownCompleted: bool, rules: Rules): Plan {
    match code
    case Usable =>
      var cursor := if step.Some? then step.value else 0;
      if rules.None? then Plan(Ask, Some(cursor))
      else ToPlan(rules.value(Evidence(Some(cursor), record, knownCompleted)), Some(cursor))
    case Stale => Plan(Ask, None)
    case Missing | Incomplete =>
      if rules.None? then Plan(Ask, None)
      else if record.state == NotStarted then Plan(RetryStep, Some(0))
      else ToPlan(rules.value(Evidence(None, record, knownCompleted)), None)
    case _ => Plan(Unrecoverable, None)
  }

  /** Whatever the decision rules are: a run continues only from a usable
      checkpoint, at exactly its step, or when there is no completed checkpoint
      at all; a stale, foreign, unreadable or altered one never continues. */
  lemma PlansContinueOnlyFromSoundState(code: Code, step: Option<int>, record: ToolRecord, known: bool, rules: Rules)
    ensures var plan := PlanRecovery(code, step, record, known, rules);
            !Refuses(plan.action) ==>
              && rules.Some?
              && (code == Usable || code == Missing || code == Incomplete)
              && (code == Usable && step.Some? ==> plan.cursor == step)
              && (code != Usable ==> plan.cursor == None || (plan.cursor == Some(0) && record.state == NotStarted))
  {
  }

  /** The decisions that let a run go on. */
  predicate GoesOn(d: Decision) {
    d == Skip || d == Resume || d == Retry
  }

  /** Recovery may continue: the rules are there, and either a usable checkpoint
      is shown to them and they let the run go on, or there is no completed one
      and nothing was started, or they let the run go on without one. */
  predicate MayContinue(code: Code, step: Option<int>, record: ToolRecord, known: bool, rules: Rules) {
    && rules.Some?
    && (|| (code == Usable && GoesOn(rules.value(Evidence(if step.Some? then step else Some(0), record, known))))
        || ((code == Missing || code == Incomplete)
            && (record.state == NotStarted || GoesOn(rules.value(Evidence(None, record, known))))))
  }

  /** A plan continues exactly then: what the rules leave to an operator, or to be
      rolled back, is refused. */
  lemma ContinuesIff(code: Code, step: Option<int>, record: ToolRecord, known: bool, rules: Rules)
    ensures !Refuses(PlanRecovery(code, step, record, known, rules).action) <==> MayContinue(code, step, record, known, rules)
  {
  }

  /** Each decision that goes on has its own action, at the step it was asked about. */
  lemma DecisionsKeepTheirAction(step: int, record: ToolRecord, known: bool, rules: Rules)
    requires rules.Some?
    ensures var plan, d := PlanRecovery(Usable, Some(step), record, known, rules), rules.value(Evidence(Some(step), record, known));
            && plan.cursor == Some(step)
            && (plan.action == SkipCompleted <==> d == Skip)
            && (plan.action == ResumeRun <==> d == Resume)
            && (plan.action == RetryStep <==> d == Retry)
            && (plan.action == LeaveUnknown <==> d == MarkUnknown)
            && (plan.action == Ask <==> !GoesOn(d) && d != MarkUnknown)
  {
  }

  /** The record recovery goes by: the one given, else the last known one, else
      that nothing was started. */
  function RecordFor(given: Option<ToolRecord>, last: Option<ToolRecord>): ToolRecord {
    if given.Some? then given.value else if last.Some? then last.value else ToolRecord(NotStarted, None, false, true, true)
  }

  /** The live runtime state, as far as recovery reads or writes it. */
  class RuntimeState {
    var status: Status
    var hasModel: bool
    var spend: real
    var currentStep: int
    var totalSteps: int

    constructor (status: Status, hasModel: bool, spend: real, currentStep: int, totalSteps: int)
      ensures this.status == status && this.hasModel == hasModel && this.spend == spend
      ensures this.currentStep == currentStep && this.totalSteps == totalSteps
    {
      this.status, this.hasModel, this.spend := status, hasModel, spend;
      this.currentStep, this.totalSteps := currentStep, totalSteps;
    }

    /** Writes a snapshot onto the live state field by field; an ill-shaped
        snapshot is rejected before anything is written. */
    method ApplySnapshot(s: Snapshot) returns (ok: bool)
      modifies this
      ensures ok == s.shaped
      ensures !ok ==> unchanged(this)
      ensures ok ==>
        && status == Or(s.status, old(status)) && hasModel == Or(s.model, old(hasModel))
        && spend == Or(s.spend, old(spend))
        && currentStep == Or(s.currentStep, old(currentStep)) && totalSteps == Or(s.totalSteps, old(totalSteps))
    {
      if !s.shaped {
        return false;
      }
      status := Or(s.status, status);
      hasModel := Or(s.model, hasModel);
      spend := Or(s.spend, spend);
      currentStep := Or(s.currentStep, currentStep);
      totalSteps := Or(s.totalSteps, totalSteps);
      ok := true;
    }
  }

  function Or<T>(o: Option<T>, d: T): T {
    if o.Some? then o.value else d
  }

  class ControlRecord {
    var control: Control
    var lastToolEffect: Option<ToolRecord>

    constructor (control: Control)
      ensures this.control == control && this.lastToolEffect == None
    {
      this.control, this.lastToolEffect := control, None;
    }
  }

  datatype Outcome = Outcome(plan: Plan, restored: bool, cursor: Option<int>)

  /** With distinct checkpoint ids, looking a held checkpoint up by id finds it. */
  lemma LookupFindsItself(held: seq<Checkpoint>, cp: Checkpoint, found: Option<Checkpoint>)
    requires cp in held && FirstWithId(held, cp.id, found)
    requires forall i, j :: 0 <= i < j < |held| ==> held[i].id != held[j].id
    ensures found == Some(cp)
  {
    var k :| 0 <= k < |held| && held[k] == cp;
    if found.Some? {
      var i :| FirstAt(held, cp.id, i) && held[i] == found.value;
      assert i == k;
    }
  }

  class RecoveryService {
    const store: CheckpointManager
    /** The recovery manager's own freshness horizon. */
    const maxCheckpointAgeMs: int

    constructor (store: CheckpointManager, maxCheckpointAgeMs: int)
      ensures this.store == store && this.maxCheckpointAgeMs == maxCheckpointAgeMs
    {
      this.store, this.maxCheckpointAgeMs := store, maxCheckpointAgeMs;
    }

    /** Never restores a checkpoint that does not validate; on refusal the live
        state keeps every field. */
    method RecoverFromCheckpoint(runId: RunId, id: string, runtime: RuntimeState, now: int)
      returns (cp: Option<Checkpoint>)
      modifies runtime
      ensures cp.None? ==> unchanged(runtime)
      ensures cp.Some? ==>
        && FirstWithId(store.Held(runId), id, cp)
        && Validate(cp, runId, now, maxCheckpointAgeMs) == Usable
        && runtime.status == Or(cp.value.snapshot.value.status, old(runtime.status))
        && runtime.hasModel == Or(cp.value.snapshot.value.model, old(runtime.hasModel))
        && runtime.spend == Or(cp.value.snapshot.value.spend, old(runtime.spend))
        && runtime.currentStep == Or(cp.value.snapshot.value.currentStep, old(runtime.currentStep))
        && runtime.totalSteps == Or(cp.value.snapshot.value.totalSteps, old(runtime.totalSteps))
    {
      cp := FindById(store.Held(runId), id);
      if cp.None? || Validate(cp, runId, now, maxCheckpointAgeMs) != Usable {
        return None;
      }
      var applied := runtime.ApplySnapshot(cp.value.snapshot.value);
      if !applied {
        cp := None;
      }
    }

    /** The checkpoint a plan is made from: the requested one, or the newest
        completed one of the run. */
    ghost predicate IsSource(runId: RunId, checkpointId: Option<string>, source: Option<Checkpoint>)
      reads store
    {
      var held := store.Held(runId);
      match checkpointId
      case Some(id) => FirstWithId(held, id, source)
      case None =>
        match source
        case None => forall c :: c in held ==> !Eligible(c, None)
        case Some(cp) => exists i :: IsNewestCompleted(held, None, i) && held[i] == cp
    }

    method FindSource(runId: RunId, checkpointId: Option<string>) returns (source: Option<Checkpoint>)
      ensures IsSource(runId, checkpointId, source)
    {
      if checkpointId.Some? {
        source := FindById(store.Held(runId), checkpointId.value);
      } else {
        source := store.GetLastCompletedCheckpoint(runId, None);
      }
    }

    /** Restores the named checkpoint and puts the execution at the cursor. */
    method Restore(runId: RunId, runtime: RuntimeState, ctrl: ControlRecord, id: string, cursor: int, now: int)
      returns (used: Option<Checkpoint>)
      modifies runtime, ctrl`control
      ensures used.None? ==> unchanged(runtime) && unchanged(ctrl)
      ensures used.Some? ==>
        && FirstWithId(store.Held(runId), id, used) && Validate(used, runId, now, maxCheckpointAgeMs) == Usable
        && runtime.currentStep == cursor <= runtime.totalSteps
        && runtime.spend == Or(used.value.snapshot.value.spend, old(runtime.spend))
        && runtime.hasModel == Or(used.value.snapshot.value.model, old(runtime.hasModel))
        && ctrl.control == if used.value.control.Some? then RestoreControl(old(ctrl.control), used.value.control.value) else old(ctrl.control)
    {
      used := RecoverFromCheckpoint(runId, id, runtime, now);
      if used.Some? {
        if used.value.control.Some? {
          ctrl.control := RestoreControl(ctrl.control, used.value.control.value);
        }
        runtime.currentStep := cursor;
        runtime.totalSteps := if runtime.totalSteps >= cursor then runtime.totalSteps else cursor;
      }
    }

    /** The whole flow. A refused plan, or a checkpoint that fails the second
        validation or does not fit, changes nothing on the run; an accepted one
        restores the checkpoint it names and continues at that step. */
    method Recover(runId: RunId, runtime: RuntimeState, ctrl: ControlRecord, toolRecord: Option<ToolRecord>,
                   checkpointId: Option<string>, knownCompleted: bool, rules: Rules, now: int)
      returns (out: Outcome, ghost source: Option<Checkpoint>, ghost used: Option<Checkpoint>)
      modifies runtime, ctrl`control
      ensures IsSource(runId, checkpointId, source)
      ensures Refuses(out.plan.action) ==> !out.restored
      ensures var code := Validate(source, runId, now, MAX_AGE_MS);
              var step := if source.Some? then source.value.step else None;
              Refuses(out.plan.action) <==>
                !MayContinue(code, step, RecordFor(toolRecord, old(ctrl.lastToolEffect)), knownCompleted, rules)
                || (code == Usable && used.None?)
      ensures !out.restored ==> unchanged(runtime) && unchanged(ctrl)
      ensures !out.restored && !Refuses(out.plan.action) ==>
        Validate(source, runId, now, MAX_AGE_MS) in {Missing, Incomplete} && (out.cursor == None || out.cursor == Some(0))
      ensures out.restored ==>
        && rules.Some? && source.Some? && Validate(source, runId, now, MAX_AGE_MS) == Usable
        && used.Some? && FirstWithId(store.Held(runId), source.value.id, used)
        && Validate(used, runId, now, maxCheckpointAgeMs) == Usable
        && out.cursor == source.value.step && Some(runtime.currentStep) == source.value.step
        && runtime.totalSteps >= runtime.currentStep
        && runtime.spend == Or(used.value.snapshot.value.spend, old(runtime.spend))
        && runtime.hasModel == Or(used.value.snapshot.value.model, old(runtime.hasModel))
      ensures out.restored ==>
        ctrl.control == if used.value.control.Some? then RestoreControl(old(ctrl.control), used.value.control.value) else old(ctrl.control)
    {
      var record := if toolRecord.Some? then toolRecord.value
                    else if ctrl.lastToolEffect.Some? then ctrl.lastToolEffect.value
                    else ToolRecord(NotStarted, None, false, true, true);
      ghost var last := ctrl.lastToolEffect;
      var raw := FindSource(runId, checkpointId);
      source, used := raw, None;
      var code := Validate(raw, runId, now, MAX_AGE_MS);
      var plan := PlanRecovery(code, if raw.Some? then raw.value.step else None, record, knownCompleted, rules);
      ContinuesIff(code, if raw.Some? then raw.value.step else None, record, knownCompleted, rules);
      assert record == RecordFor(toolRecord, last);
      if Refuses(plan.action) {
        return Outcome(plan, false, None), source, used;
      }
      if code != Usable {
        return Outcome(plan, false, plan.cursor), source, used;
      }
      var cursor := if plan.cursor.Some? then plan.cursor.value else 0;
      var cp := Restore(runId, runtime, ctrl, raw.value.id, cursor, now);
      used := cp;
      if cp.None? {
        return Outcome(Plan(Unrecoverable, None), false, None), source, used;
      }
      out := Outcome(plan, true, Some(cursor));
    }
  }
}
