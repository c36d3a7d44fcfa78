// Behaviours that reach the states in which a promise fails: a retry that goes
// back, and more live runs than the bound allows.
module Scenarios {
  import opened Wrappers
  import opened RunStates
  import opened Checkpoints
  import opened Recovery
  import opened Lifecycle
  import opened LifecycleSafety
  import opened StepOrder
  import opened Orchestrator

  // ---------- reachable registries ----------

  ghost predicate EndsIn(cfg: Settings, max: nat, states: seq<Registry>, acts: seq<Act>, s: Registry) {
    Behaviour(cfg, max, states, acts) && states[|states| - 1] == s
  }

  ghost predicate Reaches(cfg: Settings, max: nat, s: Registry) {
    exists states, acts :: EndsIn(cfg, max, states, acts, s)
  }

  lemma ReachesEmpty(cfg: Settings, max: nat)
    requires max > 0
    ensures Reaches(cfg, max, EMPTY)
  {
    assert EndsIn(cfg, max, [EMPTY], [], EMPTY);
  }

  lemma ReachesNext(cfg: Settings, max: nat, s: Registry, a: Act)
    requires Reaches(cfg, max, s)
    ensures Reaches(cfg, max, Perform(cfg, max, s, a))
  {
    var states, acts :| EndsIn(cfg, max, states, acts, s);
    var t := Perform(cfg, max, s, a);
    var longer, more := states + [t], acts + [a];
    forall i: nat | i < |more|
      ensures StepAt(cfg, max, longer, more, i)
    {
      if i < |acts| {
        assert StepAt(cfg, max, states, acts, i);
      }
    }
    assert EndsIn(cfg, max, longer, more, t);
  }

  // ---------- a run that fails after its checkpoint was evicted ----------

  const PLAIN := Env(false, false, false, false, false, false, false, false, false, false, false, false, true, false, 0)

  /** The await fails, after n checkpoints were recorded during it. */
  function Failing(n: nat): Env {
    PLAIN.(throws := true, noise := n)
  }

  const BUILDING := NewRun.(status := ContextBuild, machine := ContextBuild, running := true, deadline := true,
                            loops := [Loop(AtContext, 0, Created)])

  const SELECTING := BUILDING.(status := ModelSelect, machine := ModelSelect, loops := [Loop(AtModelSelect, 0, Created)])

  const ASKING := SELECTING.(status := Executing, machine := Executing, hasModel := true, currentStep := 1,
                             loops := [Loop(AtModel, 1, Created)])

  const DONE_ONE := ASKING.(status := Observing, machine := Observing, checkpoints := [Mark(1, true, true)],
                            loops := [Loop(AtPersist(false), 1, Created)], audit := Audit(0, 0, 0, [1], []))

  /** As many checkpoints as are kept push the completed one out. */
  function Broken(cfg: Config): Run {
    DONE_ONE.(checkpoints := Noise(cfg, [Mark(1, true, true)], 1, true, cfg.maxCheckpoints), loops := [Loop(AtSettle(true), 1, Created)])
  }

  function FailedRun(cfg: Config): Run {
    Broken(cfg).(status := Failed, machine := Failed, running := false, deadline := false, loops := [], audit := Audit(1, 0, 0, [1], []))
  }

  /** The run's loop is resumed, and the run goes from `run` to `after`. */
  predicate Goes(cfg: Config, run: Run, env: Env, after: Run, retired: bool) {
    run.loops != [] && Advance(cfg, run, true, true, 0, env) == Ending(after, retired)
  }

  lemma SetupGoes(cfg: Config)
    requires Sane(cfg)
    ensures StartRun(cfg, NewRun, PLAIN) == Ending(BUILDING, false)
    ensures Goes(cfg, BUILDING, PLAIN, SELECTING, false) && Goes(cfg, SELECTING, PLAIN, ASKING, false)
  {
    AdvanceUnfolds(cfg, BUILDING, true, true, PLAIN);
    AdvanceUnfolds(cfg, SELECTING, true, true, PLAIN);
    assert WithNoise(cfg, BUILDING, 0) == BUILDING && WithNoise(cfg, SELECTING, 0) == SELECTING;
  }

  lemma StepGoes(cfg: Config)
    requires Sane(cfg)
    ensures Goes(cfg, ASKING, PLAIN, DONE_ONE, false)
  {
    AdvanceUnfolds(cfg, ASKING, true, true, PLAIN);
    assert WithNoise(cfg, ASKING, 0) == ASKING;
    assert ToObserving(ASKING, true) == Some(ASKING.(status := Observing, machine := Observing));
  }

  lemma PersistingGoes(cfg: Config)
    requires Sane(cfg)
    ensures Goes(cfg, DONE_ONE, Failing(cfg.maxCheckpoints), Broken(cfg), false)
  {
    AdvanceUnfolds(cfg, DONE_ONE, true, true, Failing(cfg.maxCheckpoints));
  }

  lemma SettlingGoes(cfg: Config)
    requires Sane(cfg)
    ensures Goes(cfg, Broken(cfg), PLAIN, FailedRun(cfg), true)
  {
    AdvanceUnfolds(cfg, Broken(cfg), true, true, PLAIN);
    assert WithNoise(cfg, Broken(cfg), 0) == Broken(cfg);
  }

  /** The last k marks are not completed. */
  ghost predicate OpenSince(marks: seq<Mark>, k: nat) {
    forall i :: 0 <= i < |marks| && i >= |marks| - k ==> !marks[i].completed
  }

  lemma {:induction false} NoiseFills(cfg: Config, marks: seq<Mark>, step: nat, model: bool, n: nat, k: nat)
    requires Sane(cfg) && |marks| <= cfg.maxCheckpoints && OpenSince(marks, k)
    ensures var after := Noise(cfg, marks, step, model, n); |after| <= cfg.maxCheckpoints && OpenSince(after, k + n)
    decreases n
  {
    if n > 0 {
      NoiseFills(cfg, Push(cfg, marks, Mark(step, false, model)), step, model, n - 1, k + 1);
    }
  }

  lemma NothingCompleted(marks: seq<Mark>)
    requires OpenSince(marks, |marks|)
    ensures NewestCompleted(marks) == None
  {
  }

  lemma FailedRunHoldsNothing(cfg: Config)
    requires Sane(cfg)
    ensures var run := FailedRun(cfg); Sound(run) && OrderedData(cfg, run) && !StillHeld(run)
  {
    var marks := FailedRun(cfg).checkpoints;
    NoiseFills(cfg, [Mark(1, true, true)], 1, true, cfg.maxCheckpoints, 0);
    NoiseKeepsNewest(cfg, [Mark(1, true, true)], 1, true, cfg.maxCheckpoints);
    assert OpenSince(marks, |marks|);
    NothingCompleted(marks);
  }

  // ---------- the same in the registry ----------

  /** A registry with one live run, and one with one retired FAILED run. */
  function Live(r: RunId, run: Run): Registry {
    EMPTY.(runs := map[r := run], active := {r}, control := {r})
  }

  function Retired(r: RunId, run: Run): Registry {
    EMPTY.(runs := map[r := run], terminal := map[r := Failed], order := [r])
  }

  lemma ReachesNewRun(cfg: Settings, max: nat, r: RunId)
    requires max > 0 && cfg.maxConcurrent > 0
    ensures Reaches(cfg, max, Live(r, NewRun))
  {
    ReachesEmpty(cfg, max);
    ReachesNext(cfg, max, EMPTY, Create(r));
    var waiting := EMPTY.(pending := {r});
    assert Perform(cfg, max, EMPTY, Create(r)) == waiting;
    ReachesNext(cfg, max, waiting, Insert(r));
    assert Perform(cfg, max, waiting, Insert(r)) == Live(r, NewRun);
  }

  lemma ReachesStep(cfg: Settings, max: nat, r: RunId, run: Run, env: Env, after: Run)
    requires Reaches(cfg, max, Live(r, run)) && Goes(cfg.of(r), run, env, after, false)
    ensures Reaches(cfg, max, Live(r, after))
  {
    ReachesNext(cfg, max, Live(r, run), Step(r, 0, env));
    assert CommitSpec(Live(r, run), r, Ending(after, false), max) == Live(r, after);
  }

  lemma ReachesAsking(cfg: Settings, max: nat, r: RunId)
    requires max > 0 && cfg.maxConcurrent > 0 && Sane(cfg.of(r))
    ensures Reaches(cfg, max, Live(r, ASKING))
  {
    SetupGoes(cfg.of(r));
    ReachesNewRun(cfg, max, r);
    ReachesNext(cfg, max, Live(r, NewRun), Start(r, PLAIN));
    assert CommitSpec(Live(r, NewRun), r, Ending(BUILDING, false), max) == Live(r, BUILDING);
    ReachesStep(cfg, max, r, BUILDING, PLAIN, SELECTING);
    ReachesStep(cfg, max, r, SELECTING, PLAIN, ASKING);
  }

  lemma ReachesBroken(cfg: Settings, max: nat, r: RunId)
    requires max > 0 && cfg.maxConcurrent > 0 && Sane(cfg.of(r))
    ensures Reaches(cfg, max, Live(r, Broken(cfg.of(r))))
  {
    var c := cfg.of(r);
    ReachesAsking(cfg, max, r);
    StepGoes(c);
    ReachesStep(cfg, max, r, ASKING, PLAIN, DONE_ONE);
    PersistingGoes(c);
    ReachesStep(cfg, max, r, DONE_ONE, Failing(c.maxCheckpoints), Broken(c));
  }

  /** A run completes step one, loses its checkpoint to the bound on checkpoints,
      fails and is retired. */
  lemma ReachesFailed(cfg: Settings, max: nat, r: RunId)
    requires max > 0 && cfg.maxConcurrent > 0 && Sane(cfg.of(r))
    ensures Reaches(cfg, max, Retired(r, FailedRun(cfg.of(r))))
  {
    var c := cfg.of(r);
    var s := Live(r, Broken(c));
    ReachesBroken(cfg, max, r);
    SettlingGoes(c);
    ReachesNext(cfg, max, s, Step(r, 0, PLAIN));
    assert [] + [r] == [r] && {r} - {r} == {};
    assert CommitSpec(s, r, Ending(FailedRun(c), true), max) == Retired(r, FailedRun(c));
  }

  /** A retry that names no checkpoint, of a run with no recorded side effect. */
  const AGAIN := Retrial(false, true, None, Missing, ToolRecord(NotStarted, None, false, false, false), false, Some(_ => Decision.Retry), true)

  /** The failed run again, in the loop of that retry. */
  function AgainRun(cfg: Config): Run
    requires RetryProceeds(FailedRun(cfg), AGAIN)
  {
    RetryRun(cfg, FailedRun(cfg), AGAIN, PLAIN).run
  }

  lemma AgainCompletesStepOne(cfg: Config)
    requires Sane(cfg)
    ensures RetryProceeds(FailedRun(cfg), AGAIN) && !RetryRun(cfg, FailedRun(cfg), AGAIN, PLAIN).retired
    ensures Completes(cfg, AgainRun(cfg), 1, PLAIN, [1])
  {
    FailedRunHoldsNothing(cfg);
    GoingBackReenters(cfg, FailedRun(cfg), AGAIN, PLAIN);
    LostRetryRedoesStepOne(cfg, FailedRun(cfg), AGAIN, PLAIN, PLAIN);
  }

  lemma ReachesAgain(cfg: Settings, max: nat, r: RunId)
    requires max > 0 && cfg.maxConcurrent > 0 && Sane(cfg.of(r)) && RetryProceeds(FailedRun(cfg.of(r)), AGAIN)
    requires !RetryRun(cfg.of(r), FailedRun(cfg.of(r)), AGAIN, PLAIN).retired
    ensures Reaches(cfg, max, Live(r, AgainRun(cfg.of(r))))
  {
    var run := FailedRun(cfg.of(r));
    ReachesFailed(cfg, max, r);
    ReachesNext(cfg, max, Retired(r, run), Act.Retry(r, AGAIN, PLAIN));
    assert Without([r], r) == [];
    assert ResurrectSpec(Retired(r, run), r) == Live(r, run);
    assert CommitSpec(Live(r, run), r, RetryRun(cfg.of(r), run, AGAIN, PLAIN), max) == Live(r, AgainRun(cfg.of(r)));
  }

  lemma ReachesCompletion(cfg: Settings, max: nat, r: RunId, run: Run, step: nat, env: Env, done: seq<nat>)
    requires Reaches(cfg, max, Live(r, run)) && Completes(cfg.of(r), run, step, env, done)
    ensures exists s :: Reaches(cfg, max, s) && r in s.runs && s.runs[r].audit.done == done + [step]
  {
    ReachesNext(cfg, max, Live(r, run), Step(r, 0, env));
    CommitChangesOneRun(Live(r, run), r, Advance(cfg.of(r), run, true, true, 0, env), max);
  }

  /** A behaviour in which a finished step is completed twice. */
  lemma FinishedStepRepeats(cfg: Settings, max: nat, r: RunId)
    requires max > 0 && cfg.maxConcurrent > 0 && Sane(cfg.of(r))
    ensures exists s :: Reaches(cfg, max, s) && r in s.runs && s.runs[r].audit.done == [1, 1]
  {
    AgainCompletesStepOne(cfg.of(r));
    ReachesAgain(cfg, max, r);
    ReachesCompletion(cfg, max, r, AgainRun(cfg.of(r)), 1, PLAIN, [1]);
  }

  // ---------- a run that completes ----------

  /** The completion contract is met. */
  const FINAL := PLAIN.(complete := true)

  const ANSWERED := DONE_ONE.(loops := [Loop(AtPersist(true), 1, Created)])

  const COMPLETED := ANSWERED.(status := Completed, machine := Completed, running := false, deadline := false,
                               loops := [Loop(AtOptimize(false), 1, Created)], audit := Audit(1, 0, 0, [1], []))

  lemma FinalAnswerGoes(cfg: Config)
    requires Sane(cfg)
    ensures Goes(cfg, ASKING, FINAL, ANSWERED, false)
  {
    AdvanceUnfolds(cfg, ASKING, true, true, FINAL);
    assert WithNoise(cfg, ASKING, 0) == ASKING;
    assert ToObserving(ASKING, true) == Some(ASKING.(status := Observing, machine := Observing));
  }

  lemma CompletingGoes(cfg: Config)
    requires Sane(cfg)
    ensures Goes(cfg, ANSWERED, PLAIN, COMPLETED, true)
  {
    AdvanceUnfolds(cfg, ANSWERED, true, true, PLAIN);
    assert WithNoise(cfg, ANSWERED, 0) == ANSWERED;
  }

  /** A behaviour in which the answer of step one is final: the run is COMPLETED,
      retired, and has that one step. */
  lemma ReachesCompleted(cfg: Settings, max: nat, r: RunId)
    requires max > 0 && cfg.maxConcurrent > 0 && Sane(cfg.of(r))
    ensures exists s ::
              && Reaches(cfg, max, s) && s.terminal == map[r := Completed] && r !in s.active
              && r in s.runs && s.runs[r].status == Completed && s.runs[r].audit.done == [1]
  {
    ReachesAsking(cfg, max, r);
    FinalAnswerGoes(cfg.of(r));
    ReachesStep(cfg, max, r, ASKING, FINAL, ANSWERED);
    CompletingGoes(cfg.of(r));
    ReachesNext(cfg, max, Live(r, ANSWERED), Step(r, 0, PLAIN));
    assert [] + [r] == [r] && {r} - {r} == {};
    assert CommitSpec(Live(r, ANSWERED), r, Ending(COMPLETED, true), max)
        == EMPTY.(runs := map[r := COMPLETED], terminal := map[r := Completed], order := [r]);
  }

  // ---------- more live runs than allowed ----------

  /** The base registry with `live` more runs, and `waiting` creations. */
  function Crowd(base: Registry, waiting: set<RunId>, live: set<RunId>): Registry {
    base.(runs := base.runs + map r | r in live :: NewRun, active := base.active + live, control := base.control + live, pending := waiting)
  }

  lemma CrowdQueues(cfg: Settings, max: nat, base: Registry, waiting: set<RunId>, r: RunId)
    requires Reaches(cfg, max, Crowd(base, waiting, {})) && cfg.maxConcurrent > 0 && base.active == {}
    requires r !in base.runs && r !in waiting
    ensures Reaches(cfg, max, Crowd(base, waiting + {r}, {}))
  {
    assert base.runs + map[] == base.runs;
    ReachesNext(cfg, max, Crowd(base, waiting, {}), Create(r));
  }

  lemma CrowdGrows(base: Registry, waiting: set<RunId>, live: set<RunId>, r: RunId)
    requires r in waiting && r !in live && r !in base.runs
    ensures InsertSpec(Crowd(base, waiting, live), r) == Crowd(base, waiting - {r}, live + {r})
  {
    var t := InsertSpec(Crowd(base, waiting, live), r);
    assert t.runs == Crowd(base, waiting - {r}, live + {r}).runs;
    assert base.active + live + {r} == base.active + (live + {r});
    assert base.control + live + {r} == base.control + (live + {r});
  }

  lemma CrowdArrives(cfg: Settings, max: nat, base: Registry, waiting: set<RunId>, live: set<RunId>, r: RunId)
    requires Reaches(cfg, max, Crowd(base, waiting, live))
    requires r in waiting && r !in live && r !in base.runs
    ensures Reaches(cfg, max, Crowd(base, waiting - {r}, live + {r}))
  {
    CrowdGrows(base, waiting, live, r);
    ReachesNext(cfg, max, Crowd(base, waiting, live), Insert(r));
  }

  /** While no run is live, any number of creations pass the check. */
  lemma {:induction false} CreationsQueue(cfg: Settings, max: nat, base: Registry, ids: set<RunId>)
    requires Reaches(cfg, max, base) && cfg.maxConcurrent > 0 && base.active == {} && base.pending == {} && ids !! base.runs.Keys
    ensures Reaches(cfg, max, Crowd(base, ids, {}))
  {
    if ids == {} {
      assert Crowd(base, {}, {}) == base;
    } else {
      var r :| r in ids;
      CreationsQueue(cfg, max, base, ids - {r});
      CrowdQueues(cfg, max, base, ids - {r}, r);
      assert ids - {r} + {r} == ids;
    }
  }

  lemma {:induction false} CreationsArrive(cfg: Settings, max: nat, base: Registry, ids: set<RunId>, live: set<RunId>)
    requires Reaches(cfg, max, base) && cfg.maxConcurrent > 0 && base.active == {} && base.pending == {} && ids !! base.runs.Keys
    requires live <= ids
    ensures Reaches(cfg, max, Crowd(base, ids - live, live))
    decreases live
  {
    if live == {} {
      CreationsQueue(cfg, max, base, ids);
      assert ids - {} == ids;
    } else {
      var r :| r in live;
      var fewer := live - {r};
      CreationsArrive(cfg, max, base, ids, fewer);
      CrowdArrives(cfg, max, base, ids - fewer, fewer, r);
      assert ids - fewer - {r} == ids - live && fewer + {r} == live;
    }
  }

  /** Creations that overlap at their await make any number of runs live at once,
      whatever the bound and without any retry. */
  lemma OverlappingCreationsOverfill(cfg: Settings, max: nat, ids: set<RunId>)
    requires max > 0 && cfg.maxConcurrent > 0
    ensures exists s :: Reaches(cfg, max, s) && s.active == ids
  {
    ReachesEmpty(cfg, max);
    CreationsArrive(cfg, max, EMPTY, ids, ids);
    assert Crowd(EMPTY, ids - ids, ids).active == ids;
  }

  /** With the bound just reached, a retry of a retired FAILED run exceeds it,
      even one that is refused. */
  lemma RefusedRetryOverfills(cfg: Settings, max: nat, r: RunId, others: set<RunId>, t: Retrial, env: Env)
    requires max > 0 && |others| == cfg.maxConcurrent > 0 && r !in others && Sane(cfg.of(r))
    requires !t.overBudget && !t.evaluates
    ensures exists s :: Reaches(cfg, max, s) && s.active == others && Perform(cfg, max, s, Act.Retry(r, t, env)).active == others + {r}
  {
    var base := Retired(r, FailedRun(cfg.of(r)));
    ReachesFailed(cfg, max, r);
    CreationsArrive(cfg, max, base, others, others);
    var s := Crowd(base, others - others, others);
    assert s.active == others && s.runs[r] == FailedRun(cfg.of(r));
  }
}
