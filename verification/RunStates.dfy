// The run state machine: the transition table and the object that enforces it.
module RunStates {

  datatype Status =
    | Created | Planning | ContextBuild | ModelSelect | Executing
    | WaitingForTool | Observing | Reoptimizing | Completed | Failed
    | Cancelled | Paused | Pausing | Resuming | Retrying

  const MAX_HISTORY := 100

  /** The edges of the transition table. */
  predicate CanTransition(from: Status, to: Status) {
    match from
    case Created => to.Planning? || to.Cancelled?
    case Planning => to.ContextBuild? || to.Failed? || to.Cancelled?
    case ContextBuild => to.ModelSelect? || to.Failed? || to.Cancelled?
    case ModelSelect => to.Executing? || to.Failed? || to.Cancelled?
    case Executing => to.WaitingForTool? || to.Observing? || to.Reoptimizing? || to.Completed? || to.Failed? || to.Cancelled? || to.Paused? || to.Pausing?
    case WaitingForTool => to.Executing? || to.Retrying? || to.Failed? || to.Cancelled? || to.Pausing?
    case Observing => to.Executing? || to.Reoptimizing? || to.Completed? || to.Failed? || to.Cancelled? || to.Pausing?
    case Reoptimizing => to.Executing? || to.ModelSelect? || to.ContextBuild? || to.Failed? || to.Cancelled?
    case Retrying => to.Executing? || to.Planning? || to.Failed? || to.Cancelled?
    case Paused => to.Executing? || to.Resuming? || to.Cancelled?
    case Pausing => to.Paused? || to.Cancelled?
    case Resuming => to.Executing? || to.Cancelled?
    case Completed => to.Retrying?
    case Failed => to.Retrying? || to.Cancelled?
    case Cancelled => false
  }

  predicate Terminal(s: Status) {
    s.Completed? || s.Failed? || s.Cancelled?
  }

  /** A state sequence in which every adjacent pair is an edge of the table. */
  ghost predicate IsPath(p: seq<Status>) {
    forall i :: 0 < i < |p| ==> CanTransition(p[i - 1], p[i])
  }

  datatype Verdict = Valid | InvalidAt(index: nat, from: Status, to: Status)

  datatype Entry = Entry(state: Status, previous: Status)

  function States(h: seq<Entry>): (p: seq<Status>)
    ensures |p| == |h|
  {
    seq(|h|, i requires 0 <= i < |h| => h[i].state)
  }

  class StateMachine {
    var currentState: Status
    var history: seq<Entry>

    /** What every transition and reset keeps: the retained history is a
        bounded path of the table that ends in the current state. */
    ghost predicate Valid()
      reads this
    {
      && 0 < |history| <= MAX_HISTORY
      && history[|history| - 1].state == currentState
      && IsPath(States(history))
      && (forall i :: 0 < i < |history| ==> history[i].previous == history[i - 1].state)
    }

    constructor (initial: Status)
      ensures Valid() && currentState == initial && |history| == 1
    {
      currentState := initial;
      history := [Entry(initial, initial)];
    }

    method Transition(to: Status) returns (ok: bool)
      requires Valid()
      modifies this
      ensures Valid()
      ensures ok == CanTransition(old(currentState), to)
      ensures !ok ==> currentState == old(currentState) && history == old(history)
      ensures ok ==> currentState == to
      ensures ok ==> history == (old(history) + [Entry(to, old(currentState))])[if |old(history)| == MAX_HISTORY then 1 else 0..]
    {
      ok := CanTransition(currentState, to);
      if !ok {
        return;
      }
      var previous := currentState;
      currentState := to;
      history := history + [Entry(to, previous)];
      if |history| > MAX_HISTORY {
        history := history[1..];
      }
      forall i | 0 < i < |history|
        ensures CanTransition(States(history)[i - 1], States(history)[i])
      {
        var k := if |old(history)| == MAX_HISTORY then i + 1 else i;
        if k < |old(history)| {
          assert CanTransition(States(old(history))[k - 1], States(old(history))[k]);
        }
      }
    }

    method Reset(initial: Status)
      modifies this
      ensures Valid() && currentState == initial && |history| == 1
    {
      currentState := initial;
      history := [Entry(initial, initial)];
    }
  }

  /** Reports the first pair that is not an edge, and accepts exactly the paths. */
  method ValidateSequence(sequence: seq<Status>) returns (v: Verdict)
    ensures v.Valid? <==> IsPath(sequence)
    ensures v.InvalidAt? ==>
      && 0 < v.index < |sequence|
      && v.from == sequence[v.index - 1] && v.to == sequence[v.index]
      && !CanTransition(v.from, v.to)
      && IsPath(sequence[..v.index])
  {
    var i := 1;
    while i < |sequence|
      invariant 1 <= i
      invariant i <= |sequence| || |sequence| == 0
      invariant forall j :: 0 < j < i && j < |sequence| ==> CanTransition(sequence[j - 1], sequence[j])
    {
      if !CanTransition(sequence[i - 1], sequence[i]) {
        return InvalidAt(i, sequence[i - 1], sequence[i]);
      }
      i := i + 1;
    }
    v := Valid;
  }
}
