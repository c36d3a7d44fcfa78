// Exactly when a gate check is granted, over any sequence of operations on the
// approval store with a clock that does not go back.
module ApprovalTraces {
  import opened Wrappers
  import opened Json
  import opened CanonicalForm
  import opened Approvals
  import opened ApprovalStore

  /** A sweep changes a record exactly when it is pending or approved and its time
      has come, and then expires it. */
  lemma SweepChangesIff(s: Store, now: int, id: nat)
    requires id in s.records
    ensures id in Sweep(s, now).records
    ensures var r, q := s.records[id], Sweep(s, now).records[id];
            && (q != r <==> (r.status == Pending || r.status == Approved) && now >= r.expiresAt)
            && (q != r ==> q == r.(status := Expired))
  {
  }

  ghost predicate ClockMoves(ops: seq<Timed>, now: int) {
    && (forall i, j :: 0 <= i < j < |ops| ==> ops[i].now <= ops[j].now)
    && (forall i :: 0 <= i < |ops| ==> ops[i].now <= now)
  }

  predicate Settles(op: Op, id: nat) {
    op.DoSettle? && op.id == id
  }

  /** The i-th operation requested the approval `id`, with success. */
  ghost predicate Creates(max: nat, ops: seq<Timed>, i: int, id: nat) {
    && 0 <= i < |ops| && ops[i].op.DoRequest?
    && Execute(max, ops[..i]).next == id && Execute(max, ops[..i + 1]).next == id + 1
  }

  function ExpiryOf(ops: seq<Timed>, i: int): int
    requires 0 <= i < |ops| && ops[i].op.DoRequest?
  {
    ops[i].now + ops[i].op.ttl
  }

  /** From the i-th operation on, the k-th is the first decision on `id`: an
      approval, before the expiry. */
  ghost predicate ApprovedAt(ops: seq<Timed>, i: int, k: int, id: nat)
    requires 0 <= i < |ops| && ops[i].op.DoRequest?
  {
    && i < k < |ops| && ops[k].op == DoSettle(id, Approved) && ops[k].now < ExpiryOf(ops, i)
    && forall m :: i < m < k ==> !Settles(ops[m].op, id)
  }

  ghost predicate NotCleared(ops: seq<Timed>, i: int) {
    0 <= i < |ops| && ops[i].op.DoRequest? && forall m :: i < m < |ops| ==> ops[m].op != DoClear(ops[i].op.runId)
  }

  // ---------- one operation ----------

  ghost predicate SameRequest(r: Record, q: Record) {
    q.id == r.id && q.runId == r.runId && q.action == r.action && q.fingerprint == r.fingerprint && q.expiresAt == r.expiresAt
  }

  /** The record is still held, and only a decision on it while it was pending has
      changed its status. */
  ghost predicate Stays(r: Record, t: Store, op: Op, id: nat) {
    && id in t.records && SameRequest(r, t.records[id])
    && t.records[id].status == if Settles(op, id) && r.status == Pending then op.verdict else r.status
  }

  lemma TimelyRecordSettles(s: Store, max: nat, op: Op, now: int, id: nat)
    requires op.DoSettle? && id in s.records && s.records[id].id == id && now < s.records[id].expiresAt
    ensures Stays(s.records[id], Perform(s, max, op, now), op, id)
  {
  }

  lemma TimelyRecordIsChecked(s: Store, max: nat, op: Op, now: int, id: nat)
    requires op.DoConsume? && id in s.records && s.records[id].id == id && now < s.records[id].expiresAt
    ensures Stays(s.records[id], Perform(s, max, op, now), op, id)
  {
  }

  /** Before its expiry a record that is not cleared stays. */
  lemma TimelyRecordStays(s: Store, max: nat, op: Op, now: int, id: nat)
    requires Invariant(s, max) && id in s.records && now < s.records[id].expiresAt && op != DoClear(s.records[id].runId)
    ensures Stays(s.records[id], Perform(s, max, op, now), op, id)
  {
    match op
    case DoRequest(_, _, _, _, _) => assert id != s.next;
    case DoSettle(_, _) => TimelyRecordSettles(s, max, op, now, id);
    case DoConsume(_, _, _, _, _) => TimelyRecordIsChecked(s, max, op, now, id);
    case DoSweep =>
    case DoClear(_) =>
  }

  /** Where a pending or approved record comes from. */
  ghost predicate ComesFrom(r: Record, q: Record, op: Op, now: int) {
    && SameRequest(r, q)
    && (q.status == Pending ==> r.status == Pending && !Settles(op, r.id))
    && (q.status == Approved ==> r.status == Approved || Approves(r, op, now))
  }

  predicate Approves(r: Record, op: Op, now: int) {
    op == DoSettle(r.id, Approved) && r.status == Pending && now < r.expiresAt
  }

  lemma SettledComesFrom(s: Store, max: nat, op: Op, now: int, id: nat)
    requires op.DoSettle? && Proper(op) && id in s.records && s.records[id].id == id
    ensures id in Perform(s, max, op, now).records && ComesFrom(s.records[id], Perform(s, max, op, now).records[id], op, now)
  {
  }

  lemma CheckedComesFrom(s: Store, max: nat, op: Op, now: int, id: nat)
    requires op.DoConsume? && id in s.records && s.records[id].id == id
    ensures id in Perform(s, max, op, now).records && ComesFrom(s.records[id], Perform(s, max, op, now).records[id], op, now)
  {
  }

  lemma RecordComesFrom(s: Store, max: nat, op: Op, now: int, id: nat)
    requires Invariant(s, max) && Proper(op) && id in s.records && id in Perform(s, max, op, now).records
    ensures ComesFrom(s.records[id], Perform(s, max, op, now).records[id], op, now) && op != DoClear(s.records[id].runId)
  {
    match op
    case DoRequest(_, _, _, _, _) => assert id != s.next;
    case DoSettle(_, _) => SettledComesFrom(s, max, op, now, id);
    case DoConsume(_, _, _, _, _) => CheckedComesFrom(s, max, op, now, id);
    case DoSweep =>
    case DoClear(_) =>
  }

  /** A record that appears is the one just requested. */
  lemma NewRecordIsRequested(s: Store, max: nat, op: Op, now: int, id: nat)
    requires Invariant(s, max) && id !in s.records && id in Perform(s, max, op, now).records
    ensures var t := Perform(s, max, op, now);
            && op.DoRequest? && id == s.next && t.next == id + 1 && t.records[id].status == Pending
            && t.records[id].runId == op.runId && t.records[id].action == op.action
            && t.records[id].fingerprint == FingerprintParams(op.action, op.args) && t.records[id].expiresAt == now + op.ttl
  {
  }

  lemma SuccessfulRequest(s: Store, max: nat, op: Op, now: int)
    requires op.DoRequest? && Perform(s, max, op, now).next == s.next + 1
    ensures var t := Perform(s, max, op, now);
            && s.next in t.records && t.records[s.next].status == Pending && t.records[s.next].id == s.next
            && t.records[s.next].runId == op.runId && t.records[s.next].action == op.action
            && t.records[s.next].fingerprint == FingerprintParams(op.action, op.args) && t.records[s.next].expiresAt == now + op.ttl
  {
  }

  // ---------- what a held record says of the trace ----------

  /** The i-th operation requested this record. */
  ghost predicate Origin(max: nat, ops: seq<Timed>, i: int, r: Record) {
    && Creates(max, ops, i, r.id) && NotCleared(ops, i)
    && r.runId == ops[i].op.runId && r.action == ops[i].op.action
    && r.fingerprint == FingerprintParams(ops[i].op.action, ops[i].op.args) && r.expiresAt == ExpiryOf(ops, i)
  }

  ghost predicate Traced(max: nat, ops: seq<Timed>, i: int, r: Record) {
    && Origin(max, ops, i, r)
    && (r.status == Pending ==> forall m :: i < m < |ops| ==> !Settles(ops[m].op, r.id))
    && (r.status == Approved ==> exists k :: ApprovedAt(ops, i, k, r.id))
  }

  lemma CreatesStays(max: nat, ops: seq<Timed>, last: Timed, i: int, id: nat)
    requires Creates(max, ops, i, id)
    ensures Creates(max, ops + [last], i, id)
  {
    assert (ops + [last])[..i] == ops[..i] && (ops + [last])[..i + 1] == ops[..i + 1];
  }

  lemma TracedStays(max: nat, ops: seq<Timed>, last: Timed, i: int, r: Record, q: Record)
    requires Traced(max, ops, i, r) && ComesFrom(r, q, last.op, last.now) && last.op != DoClear(r.runId)
    ensures Traced(max, ops + [last], i, q)
  {
    var longer := ops + [last];
    CreatesStays(max, ops, last, i, r.id);
    if q.status == Approved {
      if r.status == Approved {
        var k :| ApprovedAt(ops, i, k, r.id);
        assert ApprovedAt(longer, i, k, r.id);
      } else {
        assert ApprovedAt(longer, i, |ops|, r.id);
      }
    }
  }

  lemma {:induction false} HeldRecordsAreTraced(max: nat, ops: seq<Timed>, id: nat)
    requires AllProper(ops) && id in Execute(max, ops).records
    ensures exists i :: Traced(max, ops, i, Execute(max, ops).records[id])
  {
    var earlier, last := ops[..|ops| - 1], ops[|ops| - 1];
    var s := Execute(max, earlier);
    assert ops == earlier + [last];
    ExecuteKeepsInvariant(max, earlier);
    ExecuteKeepsInvariant(max, ops);
    var q := Execute(max, ops).records[id];
    if id in s.records {
      HeldRecordsAreTraced(max, earlier, id);
      var i :| Traced(max, earlier, i, s.records[id]);
      RecordComesFrom(s, max, last.op, last.now, id);
      TracedStays(max, earlier, last, i, s.records[id], q);
    } else {
      NewRecordIsRequested(s, max, last.op, last.now, id);
      assert ops[..|earlier|] == earlier && ops[..|earlier| + 1] == ops;
      assert Traced(max, ops, |earlier|, q);
    }
  }

  // ---------- what the trace says of a record ----------

  ghost predicate HeldAs(s: Store, id: nat, request: Op, expiresAt: int, status: Status) {
    && request.DoRequest? && id in s.records && s.records[id].status == status
    && s.records[id].runId == request.runId && s.records[id].action == request.action
    && s.records[id].fingerprint == FingerprintParams(request.action, request.args) && s.records[id].expiresAt == expiresAt
  }

  lemma PrefixStep(max: nat, ops: seq<Timed>, n: nat)
    requires 0 < n <= |ops|
    ensures Execute(max, ops[..n]) == Perform(Execute(max, ops[..n - 1]), max, ops[n - 1].op, ops[n - 1].now)
  {
    assert ops[..n][..n - 1] == ops[..n - 1];
  }

  lemma ProperPrefix(ops: seq<Timed>, n: nat)
    requires AllProper(ops) && n <= |ops|
    ensures AllProper(ops[..n])
  {
  }

  /** As long as the time has not come and nothing clears or decides, a request
      stays pending. */
  lemma {:induction false} StaysPending(max: nat, ops: seq<Timed>, i: int, id: nat, n: nat)
    requires AllProper(ops) && Creates(max, ops, i, id) && NotCleared(ops, i) && i < n <= |ops|
    requires forall m :: i < m < n ==> !Settles(ops[m].op, id) && ops[m].now < ExpiryOf(ops, i)
    ensures HeldAs(Execute(max, ops[..n]), id, ops[i].op, ExpiryOf(ops, i), Pending)
    decreases n
  {
    PrefixStep(max, ops, n);
    var s := Execute(max, ops[..n - 1]);
    if n == i + 1 {
      SuccessfulRequest(s, max, ops[i].op, ops[i].now);
    } else {
      StaysPending(max, ops, i, id, n - 1);
      ProperPrefix(ops, n - 1);
      ExecuteKeepsInvariant(max, ops[..n - 1]);
      TimelyRecordStays(s, max, ops[n - 1].op, ops[n - 1].now, id);
    }
  }

  /** Once approved in time it stays approved until the time comes. */
  lemma {:induction false} StaysApproved(max: nat, ops: seq<Timed>, i: int, k: int, id: nat, n: nat)
    requires AllProper(ops) && Creates(max, ops, i, id) && NotCleared(ops, i) && ApprovedAt(ops, i, k, id) && k < n <= |ops|
    requires forall m :: i < m < n ==> ops[m].now < ExpiryOf(ops, i)
    ensures HeldAs(Execute(max, ops[..n]), id, ops[i].op, ExpiryOf(ops, i), Approved)
    decreases n
  {
    PrefixStep(max, ops, n);
    var s := Execute(max, ops[..n - 1]);
    if n == k + 1 {
      StaysPending(max, ops, i, id, k);
    } else {
      StaysApproved(max, ops, i, k, id, n - 1);
    }
    ProperPrefix(ops, n - 1);
    ExecuteKeepsInvariant(max, ops[..n - 1]);
    TimelyRecordStays(s, max, ops[n - 1].op, ops[n - 1].now, id);
  }

  // ---------- the theorem ----------

  /** Requested by the i-th operation for this run, action and these parameters up
      to key order, approved in time by the k-th, not cleared or used since, and
      the time has not come. */
  ghost predicate Earns(max: nat, ops: seq<Timed>, i: int, k: int, id: nat, runId: Name, action: Name, args: Args, now: int) {
    && Creates(max, ops, i, id) && NotCleared(ops, i) && ApprovedAt(ops, i, k, id)
    && ops[i].op.runId == runId && ops[i].op.action == action && ops[i].op.args.canonical == args.canonical
    && now < ExpiryOf(ops, i) && !UsedIn(Execute(max, ops).log, id)
  }

  /** What a grant needs of the record before the sweep. */
  lemma GrantNeeds(s: Store, max: nat, id: nat, runId: Name, action: Name, args: Args, proposed: Proposed, now: int)
    requires Invariant(s, max) && CheckIn(s, id, runId, action, args, proposed, now) == Granted
    ensures id in s.records && s.records[id].id == id && s.records[id].status == Approved && !UsedIn(s.log, id)
    ensures s.records[id].runId == runId && s.records[id].action == action && now < s.records[id].expiresAt
    ensures s.records[id].fingerprint == FingerprintParams(action, args)
  {
    assert RecordSound(s.log, s.records[id]);
  }

  lemma GrantIsEarned(max: nat, ops: seq<Timed>, id: nat, runId: Name, action: Name, args: Args, proposed: Proposed, now: int)
    requires AllProper(ops) && CheckIn(Execute(max, ops), id, runId, action, args, proposed, now) == Granted
    ensures exists i, k :: Earns(max, ops, i, k, id, runId, action, args, now)
  {
    ExecuteKeepsInvariant(max, ops);
    var s := Execute(max, ops);
    GrantNeeds(s, max, id, runId, action, args, proposed, now);
    HeldRecordsAreTraced(max, ops, id);
    var i :| Traced(max, ops, i, s.records[id]);
    var k :| ApprovedAt(ops, i, k, id);
    assert Earns(max, ops, i, k, id, runId, action, args, now);
  }

  lemma EarnedIsGranted(max: nat, ops: seq<Timed>, i: int, k: int, id: nat, runId: Name, action: Name, args: Args, proposed: Proposed, now: int)
    requires AllProper(ops) && ClockMoves(ops, now) && Earns(max, ops, i, k, id, runId, action, args, now)
    ensures CheckIn(Execute(max, ops), id, runId, action, args, proposed, now) == Granted
  {
    ExecuteKeepsInvariant(max, ops);
    assert ops[..|ops|] == ops;
    StaysApproved(max, ops, i, k, id, |ops|);
    var s := Execute(max, ops);
    assert RecordSound(s.log, s.records[id]);
  }

  /** A gate check is granted exactly when the approval was requested for the same
      run and action with canonically equal parameters, then approved before its
      expiry as the first decision on it, not cleared or used since, and the check
      itself comes before the expiry. */
  lemma GrantedIff(max: nat, ops: seq<Timed>, id: nat, runId: Name, action: Name, args: Args, proposed: Proposed, now: int)
    requires AllProper(ops) && ClockMoves(ops, now)
    ensures CheckIn(Execute(max, ops), id, runId, action, args, proposed, now) == Granted <==>
              exists i, k :: Earns(max, ops, i, k, id, runId, action, args, now)
  {
    if CheckIn(Execute(max, ops), id, runId, action, args, proposed, now) == Granted {
      GrantIsEarned(max, ops, id, runId, action, args, proposed, now);
    }
    if i, k :| Earns(max, ops, i, k, id, runId, action, args, now) {
      EarnedIsGranted(max, ops, i, k, id, runId, action, args, proposed, now);
    }
  }

  /** The same with real parameters, equal up to the order of object keys. */
  ghost predicate EarnsFor(max: nat, ops: seq<Timed>, i: int, k: int, id: nat, runId: Name, action: Name, params: Json, now: int) {
    && Creates(max, ops, i, id) && NotCleared(ops, i) && ApprovedAt(ops, i, k, id)
    && ops[i].op.runId == runId && ops[i].op.action == action && Same(Effective(ops[i].op.args.params), Effective(params))
    && now < ExpiryOf(ops, i) && !UsedIn(Execute(max, ops).log, id)
  }

  lemma EarnsForIff(max: nat, ops: seq<Timed>, i: int, k: int, id: nat, runId: Name, action: Name, params: Json, now: int)
    requires (forall j :: 0 <= j < |ops| ==> FaithfulOp(ops[j].op)) && WellFormed(params)
    ensures EarnsFor(max, ops, i, k, id, runId, action, params, now) <==> Earns(max, ops, i, k, id, runId, action, ArgsOf(params), now)
  {
    if Creates(max, ops, i, id) {
      assert FaithfulOp(ops[i].op);
      FingerprintBindsParams(action, ops[i].op.args.params, params);
    }
  }

  lemma GrantedForSameParams(max: nat, ops: seq<Timed>, id: nat, runId: Name, action: Name, params: Json, proposed: Proposed, now: int)
    requires AllProper(ops) && ClockMoves(ops, now) && (forall j :: 0 <= j < |ops| ==> FaithfulOp(ops[j].op)) && WellFormed(params)
    ensures CheckIn(Execute(max, ops), id, runId, action, ArgsOf(params), proposed, now) == Granted <==>
              exists i, k :: EarnsFor(max, ops, i, k, id, runId, action, params, now)
  {
    GrantedIff(max, ops, id, runId, action, ArgsOf(params), proposed, now);
    forall i, k
      ensures EarnsFor(max, ops, i, k, id, runId, action, params, now) <==> Earns(max, ops, i, k, id, runId, action, ArgsOf(params), now)
    {
      EarnsForIff(max, ops, i, k, id, runId, action, params, now);
    }
  }
}
