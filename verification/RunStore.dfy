// The run model's short view of checkpoints agrees with the store.
module RunStore {
  import opened Wrappers
  import opened Checkpoints
  import opened Lifecycle

  function MarkOf(cp: Checkpoint): Mark {
    Mark(if cp.step.Some? && cp.step.value >= 0 then cp.step.value else 0, cp.completed,
         cp.snapshot.Some? && cp.snapshot.value.model == Some(true))
  }

  function MarksOf(held: seq<Checkpoint>): (r: seq<Mark>)
    ensures |r| == |held| && forall i :: 0 <= i < |r| ==> r[i] == MarkOf(held[i])
  {
    seq(|held|, i requires 0 <= i < |held| => MarkOf(held[i]))
  }

  lemma MarksAppend(held: seq<Checkpoint>, cp: Checkpoint)
    ensures MarksOf(held + [cp]) == MarksOf(held) + [MarkOf(cp)]
    ensures MarksOf((held + [cp])[1..]) == (MarksOf(held) + [MarkOf(cp)])[1..]
  {
  }

  /** What the store does with a new checkpoint is what the run model records. */
  lemma StoringIsPushing(cfg: Config, held: seq<Checkpoint>, cp: Checkpoint)
    requires cfg.maxCheckpoints > 0 && |held| <= cfg.maxCheckpoints
    ensures MarksOf(Last(held + [cp], cfg.maxCheckpoints)) == Push(cfg, MarksOf(held), MarkOf(cp))
  {
    MarksAppend(held, cp);
    if |held| == cfg.maxCheckpoints {
      assert Last(held + [cp], cfg.maxCheckpoints) == (held + [cp])[1..];
    } else {
      assert Last(held + [cp], cfg.maxCheckpoints) == held + [cp];
    }
  }

  /** The checkpoint that automatic recovery takes from the store is the newest
      completed one of the run model, and there is none in the one exactly when
      there is none in the other. */
  lemma {:induction false} NewestCompletedAgrees(held: seq<Checkpoint>)
    ensures forall i :: IsNewestCompleted(held, None, i) ==> NewestCompleted(MarksOf(held)) == Some(MarkOf(held[i]))
    ensures NewestCompleted(MarksOf(held)).None? <==> forall c :: c in held ==> !Eligible(c, None)
  {
    if held != [] {
      var n := |held| - 1;
      var front := held[..n];
      assert held == front + [held[n]] && MarksOf(held)[..n] == MarksOf(front);
      NewestCompletedAgrees(front);
      if Eligible(held[n], None) {
        assert held[n] in held;
        forall i | IsNewestCompleted(held, None, i)
          ensures i == n
        {
        }
      } else {
        forall i | IsNewestCompleted(held, None, i)
          ensures IsNewestCompleted(front, None, i)
        {
        }
        assert forall c :: c in front ==> c in held;
      }
    }
  }

  /** The verdict of validation is one the run model lets recovery see, and
      unchanged by it. */
  lemma VerdictAgrees(cp: Option<Checkpoint>, runId: RunId, now: int, maxAgeMs: int)
    ensures var code := Validate(cp, runId, now, maxAgeMs);
            CodeOf(if cp.Some? then Some(MarkOf(cp.value)) else None, code) == code
  {
  }
}
