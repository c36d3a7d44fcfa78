// The approval store over real parameters, and what a granted use means.
module ApprovalStore {
  import opened Wrappers
  import opened Json
  import opened CanonicalJson
  import opened CanonicalForm
  import opened Approvals

  predicate Truthy(v: Json) {
    match v
    case Undef | Null => false
    case Bool(b) => b
    case Num(t) => t != Ascii("0")
    case Str(t) => t != []
    case _ => true
  }

  function Effective(params: Json): Json {
    if Truthy(params) then params else Obj([])
  }

  function ArgsOf(params: Json): Args {
    Args(params, Effective(params), Print(Effective(params)))
  }

  /** Exactly the falsy values count as an empty object. */
  lemma FalsyCountsAsEmpty(params: Json)
    ensures Effective(params)
            == if params in {Undef, Null, Bool(false), Num(Ascii("0")), Str([])} then Obj([]) else params
  {
  }

  /** Two parameter values get the same fingerprint exactly when they are equal
      up to the order of object keys. */
  lemma FingerprintBindsParams(action: Name, p: Json, q: Json)
    requires WellFormed(p) && WellFormed(q)
    ensures FingerprintParams(action, ArgsOf(p)) == FingerprintParams(action, ArgsOf(q)) <==> Same(Effective(p), Effective(q))
  {
    PrintIsCanonical(Effective(p), Effective(q));
  }

  ghost predicate Faithful(args: Args) {
    WellFormed(args.params) && args == ArgsOf(args.params)
  }

  ghost predicate FaithfulOp(op: Op) {
    (op.DoRequest? ==> Faithful(op.args)) && (op.DoConsume? ==> Faithful(op.args))
  }

  ghost predicate FaithfulEvent(e: Event) {
    (e.Requested? ==> Faithful(e.args)) && (e.Used? ==> Faithful(e.args))
  }

  /** An operation logs at most one event, with its own parameters. */
  lemma LogGrowsByOwnEvent(s: Store, max: nat, op: Op, now: int)
    ensures var t := Perform(s, max, op, now);
            t.log == s.log ||
            (&& |t.log| == |s.log| + 1 && t.log[..|s.log|] == s.log
             && var e := t.log[|s.log|];
                (e.Requested? ==> op.DoRequest? && e.args == op.args) && (e.Used? ==> op.DoConsume? && e.args == op.args))
  {
  }

  lemma {:induction false} EventsAreFaithful(max: nat, ops: seq<Timed>, j: nat)
    requires forall i :: 0 <= i < |ops| ==> FaithfulOp(ops[i].op)
    requires j < |Execute(max, ops).log|
    ensures FaithfulEvent(Execute(max, ops).log[j])
  {
    if ops != [] {
      var earlier, last := ops[..|ops| - 1], ops[|ops| - 1];
      var s := Execute(max, earlier);
      LogGrowsByOwnEvent(s, max, last.op, last.now);
      if j < |s.log| {
        EventsAreFaithful(max, earlier, j);
        assert Execute(max, ops).log[..|s.log|][j] == s.log[j];
      }
    }
  }

  /** Every successful use was preceded by the request of the same approval and
      then by its approval, has the same run, action and parameters up to key
      order, and comes before the expiry. */
  ghost predicate Earned(log: seq<Event>, j: nat)
    requires j < |log| && log[j].Used?
  {
    exists i, k ::
      && 0 <= i < k < j && log[i].Requested? && log[k] == Decided(log[j].id, Approved)
      && log[i].id == log[j].id && log[i].runId == log[j].runId && log[i].action == log[j].action
      && Same(Effective(log[i].args.params), Effective(log[j].args.params))
      && log[j].now < log[i].expiresAt
  }

  lemma EveryUseIsEarned(max: nat, ops: seq<Timed>, j: nat)
    requires AllProper(ops) && forall i :: 0 <= i < |ops| ==> FaithfulOp(ops[i].op)
    requires j < |Execute(max, ops).log| && Execute(max, ops).log[j].Used?
    ensures Earned(Execute(max, ops).log, j)
  {
    ExecuteKeepsInvariant(max, ops);
    var log := Execute(max, ops).log;
    assert Justified(log, j);
    var i, k :| 0 <= i < k < j && Answers(log[i], log[k], log[j]);
    EventsAreFaithful(max, ops, i);
    EventsAreFaithful(max, ops, j);
    FingerprintBindsParams(log[j].action, log[i].args.params, log[j].args.params);
  }

  class ApprovalStore {
    const maxPending: nat
    const defaultTtlMs: int
    var approvals: map<nat, Record>
    var approvalSeq: nat
    ghost var log: seq<Event>

    ghost function State(): Store
      reads this
    {
      Store(approvals, approvalSeq, log)
    }

    ghost predicate Valid()
      reads this
    {
      Invariant(State(), maxPending)
    }

    constructor (maxPending: nat, defaultTtlMs: int)
      ensures Valid() && State() == EMPTY
      ensures this.maxPending == maxPending && this.defaultTtlMs == defaultTtlMs
    {
      this.maxPending, this.defaultTtlMs := maxPending, defaultTtlMs;
      approvals, approvalSeq, log := map[], 0, [];
      new;
      assert State() == Execute(maxPending, []);
      ExecuteKeepsInvariant(maxPending, []);
    }

    ghost predicate Numbered()
      reads this
    {
      forall id :: id in approvals ==> id < approvalSeq
    }

    /** The record made by a request. */
    ghost predicate Requests(r: Record, runId: Name, action: Name, params: Json, expiresAt: int) {
      && r.status == Pending && !r.consumed && r.runId == runId && r.action == action
      && r.fingerprint == OfParams(action, Print(Effective(params))) && r.expiresAt == expiresAt
    }

    method AddRequest(runId: Name, action: Name, params: Json, proposed: Proposed, expiresAt: int) returns (id: Option<nat>)
      requires Numbered()
      modifies this
      ensures State() == Request(old(State()), maxPending, runId, action, ArgsOf(params), proposed, expiresAt)
      ensures var waiting := set i | i in old(approvals) && old(approvals)[i].runId == runId && old(approvals)[i].status == Pending;
              id.Some? <==> runId.text != "" && action.text != "" && |waiting| < maxPending
      ensures id.None? ==> State() == old(State())
      ensures id.Some? ==>
        && id.value !in old(approvals) && approvals.Keys == old(approvals).Keys + {id.value}
        && (forall i :: i in old(approvals) ==> approvals[i] == old(approvals)[i])
        && Requests(approvals[id.value], runId, action, params, expiresAt)
    {
      assert PendingOf(approvals, runId) == set i | i in approvals && approvals[i].runId == runId && approvals[i].status == Pending;
      if runId.text == "" || action.text == "" || |PendingOf(approvals, runId)| >= maxPending {
        return None;
      }
      var seqNo := approvalSeq;
      approvalSeq := approvalSeq + 1;
      var fp := FingerprintParams(action, ArgsOf(params));
      var stored := if proposed.Given? then Some(proposed.serialized) else None;
      approvals := approvals[seqNo := Record(seqNo, runId, action, stored, fp, expiresAt, Pending, false)];
      log := log + [Requested(seqNo, runId, action, ArgsOf(params), expiresAt)];
      id := Some(seqNo);
    }

    /** None stands for an exception: no run or action, or too many pending. */
    method RequestApproval(runId: Name, action: Name, params: Json, proposed: Proposed, expiresInMs: Option<int>, now: int)
      returns (id: Option<nat>)
      requires Valid()
      modifies this
      ensures Valid()
      ensures State() == Request(old(State()), maxPending, runId, action, ArgsOf(params), proposed,
                                 now + if expiresInMs.Some? then expiresInMs.value else defaultTtlMs)
      ensures var waiting := set i | i in old(approvals) && old(approvals)[i].runId == runId && old(approvals)[i].status == Pending;
              id.Some? <==> runId.text != "" && action.text != "" && |waiting| < maxPending
      ensures id.None? ==> State() == old(State())
      ensures id.Some? ==>
        && id.value !in old(approvals) && approvals.Keys == old(approvals).Keys + {id.value}
        && (forall i :: i in old(approvals) ==> approvals[i] == old(approvals)[i])
        && Requests(approvals[id.value], runId, action, params, now + if expiresInMs.Some? then expiresInMs.value else defaultTtlMs)
    {
      var ttl := if expiresInMs.Some? then expiresInMs.value else defaultTtlMs;
      RequestKeepsInvariant(State(), maxPending, runId, action, ArgsOf(params), proposed, now + ttl);
      id := AddRequest(runId, action, params, proposed, now + ttl);
    }

    /** Visits the records in the order they were made. */
    method SweepExpired(now: int)
      requires Numbered()
      modifies this`approvals
      ensures State() == Sweep(old(State()), now)
      ensures approvals.Keys == old(approvals).Keys
      ensures forall id :: id in approvals ==>
                var r := old(approvals)[id];
                approvals[id] == if (r.status == Pending || r.status == Approved) && now >= r.expiresAt then r.(status := Expired) else r
    {
      for i := 0 to approvalSeq
        invariant approvals.Keys == old(approvals).Keys
        invariant forall id :: id in approvals ==> approvals[id] == if id < i then Swept(old(approvals)[id], now) else old(approvals)[id]
      {
        if i in approvals {
          approvals := approvals[i := Swept(approvals[i], now)];
        }
      }
      assert approvals == Sweep(old(State()), now).records;
    }

    method SettleApproval(id: nat, verdict: Status, now: int) returns (ok: bool)
      requires Valid()
      requires verdict == Approved || verdict == Denied || verdict == Cancelled
      modifies this
      ensures Valid() && State() == Settle(old(State()), id, verdict, now)
      ensures ok <==> id in old(approvals) && old(approvals)[id].status == Pending && now < old(approvals)[id].expiresAt
    {
      SettleKeepsInvariant(State(), maxPending, id, verdict, now);
      SweepExpired(now);
      if id !in approvals || approvals[id].status != Pending {
        return false;
      }
      approvals := approvals[id := approvals[id].(status := verdict)];
      log := log + [Decided(id, verdict)];
      ok := true;
    }

    method CheckAndConsume(runId: Name, action: Name, params: Json, proposed: Proposed, id: nat, now: int) returns (answer: Answer)
      requires Valid()
      modifies this
      ensures Valid() && State() == Consume(old(State()), id, runId, action, ArgsOf(params), proposed, now)
      ensures answer == CheckIn(old(State()), id, runId, action, ArgsOf(params), proposed, now)
    {
      ConsumeKeepsInvariant(State(), maxPending, id, runId, action, ArgsOf(params), proposed, now);
      SweepExpired(now);
      if id !in approvals {
        return NotFound;
      }
      answer := Check(approvals[id], runId, action, ArgsOf(params), proposed, now);
      if answer == TooLate {
        approvals := approvals[id := approvals[id].(status := Expired)];
      } else if answer == Granted {
        approvals := approvals[id := approvals[id].(consumed := true)];
        log := log + [Used(id, runId, action, ArgsOf(params), now)];
      }
    }

    /** The first record, in the order they were made, that may be reported. */
    method FindPeekable(runId: Name, action: Name, args: Args, proposed: Proposed, now: int) returns (found: Option<nat>)
      requires Numbered()
      ensures found.Some? ==>
        && found.value in approvals && Peekable(approvals[found.value], runId, action, args, proposed, now)
        && forall i :: i in approvals && i < found.value ==> !Peekable(approvals[i], runId, action, args, proposed, now)
      ensures found.None? ==> forall i :: i in approvals ==> !Peekable(approvals[i], runId, action, args, proposed, now)
    {
      for i := 0 to approvalSeq
        invariant forall k :: k in approvals && k < i ==> !Peekable(approvals[k], runId, action, args, proposed, now)
      {
        if i in approvals && Peekable(approvals[i], runId, action, args, proposed, now) {
          return Some(i);
        }
      }
      found := None;
    }

    /** What is found is granted to an immediate gate check, unless the caller
        gives a falsy proposed action and only the stored one matches. */
    method Peek(runId: Name, action: Name, params: Json, proposed: Proposed, now: int) returns (found: Option<nat>)
      requires Valid()
      modifies this`approvals
      ensures Valid() && State() == Sweep(old(State()), now)
      ensures found.Some? ==>
        && found.value in approvals && Peekable(approvals[found.value], runId, action, ArgsOf(params), proposed, now)
        && (proposed != Falsy ==> Check(approvals[found.value], runId, action, ArgsOf(params), proposed, now) == Granted)
      ensures forall i :: i in approvals && (found.Some? ==> i < found.value) ==>
                Check(approvals[i], runId, action, ArgsOf(params), proposed, now) != Granted
    {
      SweepKeepsInvariant(State(), maxPending, now);
      SweepExpired(now);
      found := FindPeekable(runId, action, ArgsOf(params), proposed, now);
      forall i | i in approvals
        ensures Peekable(approvals[i], runId, action, ArgsOf(params), proposed, now) && proposed != Falsy ==>
                  Check(approvals[i], runId, action, ArgsOf(params), proposed, now) == Granted
        ensures Check(approvals[i], runId, action, ArgsOf(params), proposed, now) == Granted ==>
                  Peekable(approvals[i], runId, action, ArgsOf(params), proposed, now)
      {
        PeekPromisesGrant(approvals[i], runId, action, ArgsOf(params), proposed, now);
      }
    }

    method DeleteOfRun(runId: Name)
      requires Numbered()
      modifies this`approvals
      ensures State() == ClearRun(old(State()), runId)
    {
      for i := 0 to approvalSeq
        invariant forall id :: id in approvals <==> id in old(approvals) && (id >= i || old(approvals)[id].runId != runId)
        invariant forall id :: id in approvals ==> approvals[id] == old(approvals)[id]
      {
        if i in approvals && approvals[i].runId == runId {
          approvals := approvals - {i};
        }
      }
      assert approvals == ClearRun(old(State()), runId).records;
    }

    method ClearApprovals(runId: Name)
      requires Valid()
      modifies this`approvals
      ensures Valid() && State() == ClearRun(old(State()), runId)
      ensures forall id :: id in approvals <==> id in old(approvals) && old(approvals)[id].runId != runId
      ensures forall id :: id in approvals ==> approvals[id] == old(approvals)[id]
    {
      ClearKeepsInvariant(State(), maxPending, runId);
      DeleteOfRun(runId);
    }
  }
}
