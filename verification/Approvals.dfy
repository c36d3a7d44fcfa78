// Scoped, expiring, single-use approvals.
module Approvals {
  import opened Wrappers
  import opened Json

  datatype Status = Pending | Approved | Denied | Expired | Cancelled

  /** The digest, taken as injective; the old form, which also covered the
      proposed action, hashes a different shape and never meets the new one. */
  datatype Fingerprint =
    | OfParams(action: Name, canonical: Text)
    | Legacy(action: Name, params: Json, extra: Text)

  /** A proposed action is left out, present but falsy, or serialized. */
  datatype Proposed = Omitted | Falsy | Given(serialized: Text)

  datatype Record = Record(id: nat, runId: Name, action: Name, proposed: Option<Text>, fingerprint: Fingerprint,
                           expiresAt: int, status: Status, consumed: bool)

  /** Parameters with their canonical print; falsy parameters count as an empty object. */
  datatype Args = Args(params: Json, effective: Json, canonical: Text)

  function FingerprintParams(action: Name, args: Args): Fingerprint {
    OfParams(action, args.canonical)
  }

  function FingerprintAction(action: Name, args: Args, extra: Text): Fingerprint {
    if extra != [] && extra != Ascii("{}") then Legacy(action, args.effective, extra) else FingerprintParams(action, args)
  }

  /** The old form is used exactly for a proposed action that says something, and
      never meets the new one. */
  lemma OldFormIff(action: Name, args: Args, extra: Text)
    ensures FingerprintAction(action, args, extra) == FingerprintParams(action, args) <==> extra == [] || extra == Ascii("{}")
    ensures FingerprintAction(action, args, extra) != FingerprintParams(action, args) ==>
              FingerprintAction(action, args, extra) == Legacy(action, args.effective, extra)
  {
  }

  function Serialized(p: Proposed): Text {
    if p.Given? then p.serialized else Ascii("{}")
  }

  // ---------- the store as a value ----------

  datatype Event =
    | Requested(id: nat, runId: Name, action: Name, args: Args, expiresAt: int)
    | Decided(id: nat, verdict: Status)
    | Used(id: nat, runId: Name, action: Name, args: Args, now: int)

  datatype Store = Store(records: map<nat, Record>, next: nat, log: seq<Event>)

  const EMPTY := Store(map[], 0, [])

  function Swept(r: Record, now: int): Record {
    if (r.status == Pending || r.status == Approved) && r.expiresAt <= now then r.(status := Expired) else r
  }

  function Sweep(s: Store, now: int): Store {
    s.(records := map id | id in s.records :: Swept(s.records[id], now))
  }

  function PendingOf(records: map<nat, Record>, runId: Name): set<nat> {
    set id | id in records && records[id].runId == runId && records[id].status == Pending
  }

  function Request(s: Store, max: nat, runId: Name, action: Name, args: Args, proposed: Proposed, expiresAt: int): Store {
    if runId.text == "" || action.text == "" || |PendingOf(s.records, runId)| >= max then s
    else
      Store(s.records[s.next := Record(s.next, runId, action, if proposed.Given? then Some(proposed.serialized) else None,
                                       FingerprintParams(action, args), expiresAt, Pending, false)],
            s.next + 1,
            s.log + [Requested(s.next, runId, action, args, expiresAt)])
  }

  function Settle(s: Store, id: nat, verdict: Status, now: int): Store {
    var t := Sweep(s, now);
    if id !in t.records || t.records[id].status != Pending then t
    else t.(records := t.records[id := t.records[id].(status := verdict)], log := t.log + [Decided(id, verdict)])
  }

  datatype Answer = Granted | NotFound | OtherRun | OtherAction | TooLate | NotApproved(status: Status) | AlreadyUsed | Mismatch

  predicate Matches(r: Record, action: Name, args: Args, proposed: Proposed) {
    || FingerprintParams(action, args) == r.fingerprint
    || (proposed != Omitted && FingerprintAction(action, args, Serialized(proposed)) == r.fingerprint)
    || (proposed == Omitted && r.proposed.Some? && FingerprintAction(action, args, r.proposed.value) == r.fingerprint)
  }

  /** What a gate check answers for a record. */
  function Check(r: Record, runId: Name, action: Name, args: Args, proposed: Proposed, now: int): Answer {
    if r.runId != runId then OtherRun
    else if r.action != action then OtherAction
    else if now >= r.expiresAt then TooLate
    else if r.status != Approved then NotApproved(r.status)
    else if r.consumed then AlreadyUsed
    else if !Matches(r, action, args, proposed) then Mismatch
    else Granted
  }

  function CheckIn(s: Store, id: nat, runId: Name, action: Name, args: Args, proposed: Proposed, now: int): Answer {
    var t := Sweep(s, now);
    if id !in t.records then NotFound else Check(t.records[id], runId, action, args, proposed, now)
  }

  function Consume(s: Store, id: nat, runId: Name, action: Name, args: Args, proposed: Proposed, now: int): Store {
    var t := Sweep(s, now);
    match CheckIn(s, id, runId, action, args, proposed, now)
    case TooLate => t.(records := t.records[id := t.records[id].(status := Expired)])
    case Granted => t.(records := t.records[id := t.records[id].(consumed := true)], log := t.log + [Used(id, runId, action, args, now)])
    case _ => t
  }

  /** A record that the non-consuming check may report; unlike the consuming
      one it also tries the stored proposed action for a falsy one. */
  predicate Peekable(r: Record, runId: Name, action: Name, args: Args, proposed: Proposed, now: int) {
    && r.runId == runId && r.action == action && r.status == Approved && !r.consumed && now < r.expiresAt
    && (|| FingerprintParams(action, args) == r.fingerprint
        || (proposed != Omitted && FingerprintAction(action, args, Serialized(proposed)) == r.fingerprint)
        || (!proposed.Given? && r.proposed.Some? && FingerprintAction(action, args, r.proposed.value) == r.fingerprint))
  }

  function ClearRun(s: Store, runId: Name): Store {
    s.(records := map id | id in s.records && s.records[id].runId != runId :: s.records[id])
  }

  datatype Op =
    | DoRequest(runId: Name, action: Name, args: Args, proposed: Proposed, ttl: int)
    | DoSettle(id: nat, verdict: Status)
    | DoConsume(id: nat, runId: Name, action: Name, args: Args, proposed: Proposed)
    | DoSweep
    | DoClear(runId: Name)

  function Perform(s: Store, max: nat, op: Op, now: int): Store {
    match op
    case DoRequest(runId, action, args, proposed, ttl) => Request(s, max, runId, action, args, proposed, now + ttl)
    case DoSettle(id, verdict) => Settle(s, id, verdict, now)
    case DoConsume(id, runId, action, args, proposed) => Consume(s, id, runId, action, args, proposed, now)
    case DoSweep => Sweep(s, now)
    case DoClear(runId) => ClearRun(s, runId)
  }

  /** Callers settle only to a decision. */
  predicate Proper(op: Op) {
    op.DoSettle? ==> op.verdict == Approved || op.verdict == Denied || op.verdict == Cancelled
  }

  // ---------- what every operation keeps ----------

  ghost predicate RequestedAt(log: seq<Event>, i: int, r: Record) {
    && 0 <= i < |log| && log[i].Requested? && log[i].id == r.id && log[i].runId == r.runId && log[i].action == r.action
    && log[i].expiresAt == r.expiresAt && r.fingerprint == FingerprintParams(r.action, log[i].args)
  }

  ghost predicate WasRequested(log: seq<Event>, r: Record) {
    exists i :: RequestedAt(log, i, r)
  }

  ghost predicate WasApproved(log: seq<Event>, r: Record) {
    exists i, k :: RequestedAt(log, i, r) && i < k < |log| && log[k] == Decided(r.id, Approved)
  }

  predicate UsedIn(log: seq<Event>, id: nat) {
    exists k :: 0 <= k < |log| && log[k].Used? && log[k].id == id
  }

  ghost predicate RecordSound(log: seq<Event>, r: Record) {
    && WasRequested(log, r)
    && (r.status == Approved ==> WasApproved(log, r))
    && (r.consumed <==> UsedIn(log, r.id))
  }

  /** A use of an approval that matches its request and its own approval, and
      comes before expiry. */
  ghost predicate Answers(request: Event, approval: Event, use: Event) {
    && request.Requested? && use.Used? && approval == Decided(use.id, Approved)
    && request.id == use.id && request.runId == use.runId && request.action == use.action
    && request.args.canonical == use.args.canonical
    && use.now < request.expiresAt
  }

  /** The use at position j follows its request and its approval, in that order. */
  ghost predicate Justified(log: seq<Event>, j: int)
    requires 0 <= j < |log|
  {
    exists i, k :: 0 <= i < k < j && Answers(log[i], log[k], log[j])
  }

  ghost predicate LogSound(s: Store) {
    && (forall j :: 0 <= j < |s.log| ==> s.log[j].id < s.next)
    && (forall j :: 0 <= j < |s.log| && s.log[j].Used? ==> Justified(s.log, j))
    && (forall j, k :: 0 <= j < k < |s.log| && s.log[j].Used? && s.log[k].Used? ==> s.log[j].id != s.log[k].id)
  }

  ghost predicate Invariant(s: Store, max: nat) {
    && LogSound(s)
    && (forall id :: id in s.records ==> id < s.next && s.records[id].id == id && RecordSound(s.log, s.records[id]))
    && (forall runId :: |PendingOf(s.records, runId)| <= max)
  }

  /** Appending an event that is no use keeps what the log says of a record. */
  lemma AppendKeepsRecord(log: seq<Event>, e: Event, r: Record)
    requires RecordSound(log, r) && (e.Used? ==> e.id != r.id)
    ensures RecordSound(log + [e], r)
  {
    var i :| RequestedAt(log, i, r);
    assert RequestedAt(log + [e], i, r);
    if r.status == Approved {
      var i, k :| RequestedAt(log, i, r) && i < k < |log| && log[k] == Decided(r.id, Approved);
      assert RequestedAt(log + [e], i, r) && (log + [e])[k] == Decided(r.id, Approved);
    }
    if UsedIn(log, r.id) {
      var k :| 0 <= k < |log| && log[k].Used? && log[k].id == r.id;
      assert (log + [e])[k].Used?;
    }
  }

  lemma AppendKeepsLog(s: Store, e: Event)
    requires LogSound(s) && e.id < s.next
    requires e.Used? ==> !UsedIn(s.log, e.id) && Justified(s.log + [e], |s.log|)
    ensures LogSound(s.(log := s.log + [e]))
  {
    var log := s.log + [e];
    forall j | 0 <= j < |log| && log[j].Used?
      ensures Justified(log, j)
    {
      if j < |s.log| {
        JustifiedStays(s.log, e, j);
      }
    }
  }

  lemma JustifiedStays(log: seq<Event>, e: Event, j: int)
    requires 0 <= j < |log| && Justified(log, j)
    ensures Justified(log + [e], j)
  {
    var i, k :| 0 <= i < k < j && Answers(log[i], log[k], log[j]);
    assert Answers((log + [e])[i], (log + [e])[k], (log + [e])[j]);
  }

  // ---------- each operation keeps it ----------

  lemma SweepKeepsRecords(s: Store, now: int, id: nat)
    requires id in s.records && RecordSound(s.log, s.records[id])
    ensures RecordSound(s.log, Swept(s.records[id], now))
  {
    RecordKeeps(s.log, s.records[id], Swept(s.records[id], now));
  }

  lemma SweepKeepsPending(s: Store, now: int, runId: Name)
    ensures |PendingOf(Sweep(s, now).records, runId)| <= |PendingOf(s.records, runId)|
  {
    SubsetIsSmaller(PendingOf(Sweep(s, now).records, runId), PendingOf(s.records, runId));
  }

  lemma SweepKeepsInvariant(s: Store, max: nat, now: int)
    requires Invariant(s, max)
    ensures Invariant(Sweep(s, now), max)
  {
    var t := Sweep(s, now);
    forall runId
      ensures |PendingOf(t.records, runId)| <= max
    {
      SweepKeepsPending(s, now, runId);
    }
    forall id | id in t.records
      ensures RecordSound(t.log, t.records[id])
    {
      SweepKeepsRecords(s, now, id);
    }
  }

  /** Changing only the status, away from an unearned approval, keeps a record sound. */
  lemma RecordKeeps(log: seq<Event>, r: Record, q: Record)
    requires RecordSound(log, r) && q == r.(status := q.status) && (q.status == Approved ==> r.status == Approved)
    ensures RecordSound(log, q)
  {
    var i :| RequestedAt(log, i, r);
    assert RequestedAt(log, i, q);
    if q.status == Approved {
      var i, k :| RequestedAt(log, i, r) && i < k < |log| && log[k] == Decided(r.id, Approved);
      assert RequestedAt(log, i, q);
    }
  }

  lemma SubsetIsSmaller<T>(a: set<T>, b: set<T>)
    requires a <= b
    ensures |a| <= |b|
  {
    if a != {} {
      var x :| x in a;
      SubsetIsSmaller(a - {x}, b - {x});
    }
  }

  /** A record that is not pending adds nothing to what is pending. */
  lemma ReplaceKeepsPending(records: map<nat, Record>, r: Record, runId: Name)
    requires r.status != Pending
    ensures |PendingOf(records[r.id := r], runId)| <= |PendingOf(records, runId)|
  {
    SubsetIsSmaller(PendingOf(records[r.id := r], runId), PendingOf(records, runId));
  }

  lemma OthersKeepRecord(log: seq<Event>, events: seq<Event>, r: Record)
    requires RecordSound(log, r)
    requires events == [] || (|events| == 1 && events[0].id != r.id)
    ensures RecordSound(log + events, r)
  {
    if events == [] {
      assert log + events == log;
    } else {
      assert events == [events[0]];
      AppendKeepsRecord(log, events[0], r);
    }
  }

  /** Replacing one record, with an event appended that is about no other. */
  lemma UpdateKeepsInvariant(s: Store, max: nat, r: Record, events: seq<Event>)
    requires Invariant(s, max) && r.id in s.records && r.status != Pending
    requires events == [] || (|events| == 1 && events[0].id == r.id)
    requires LogSound(s.(log := s.log + events)) && RecordSound(s.log + events, r)
    ensures Invariant(s.(records := s.records[r.id := r], log := s.log + events), max)
  {
    var t := s.(records := s.records[r.id := r], log := s.log + events);
    forall runId
      ensures |PendingOf(t.records, runId)| <= max
    {
      ReplaceKeepsPending(s.records, r, runId);
    }
    forall id | id in t.records
      ensures RecordSound(t.log, t.records[id])
    {
      if id != r.id {
        OthersKeepRecord(s.log, events, s.records[id]);
      }
    }
  }

  lemma SettleKeepsInvariant(s: Store, max: nat, id: nat, verdict: Status, now: int)
    requires Invariant(s, max) && verdict != Pending
    ensures Invariant(Settle(s, id, verdict, now), max)
  {
    SweepKeepsInvariant(s, max, now);
    var t := Sweep(s, now);
    if id in t.records && t.records[id].status == Pending {
      var r, e := t.records[id], Decided(id, verdict);
      AppendKeepsLog(t, e);
      AppendKeepsRecord(t.log, e, r);
      var q, log := r.(status := verdict), t.log + [e];
      var i :| RequestedAt(t.log, i, r);
      assert RequestedAt(log, i, q) && log[|t.log|] == e;
      assert RecordSound(log, q);
      UpdateKeepsInvariant(t, max, q, [e]);
    }
  }

  lemma NewRecordIsSound(log: seq<Event>, r: Record, e: Event)
    requires e.Requested? && RequestedAt([e], 0, r) && r.status == Pending && !r.consumed && !UsedIn(log, r.id)
    ensures RecordSound(log + [e], r)
  {
    assert RequestedAt(log + [e], |log|, r);
  }

  lemma NewRecordCounts(records: map<nat, Record>, r: Record, max: nat, runId: Name)
    requires r.id !in records && |PendingOf(records, runId)| <= max && (r.runId == runId ==> |PendingOf(records, runId)| < max)
    ensures |PendingOf(records[r.id := r], runId)| <= max
  {
    var before, after := PendingOf(records, runId), PendingOf(records[r.id := r], runId);
    if r.runId == runId {
      SubsetIsSmaller(after, before + {r.id});
    } else {
      SubsetIsSmaller(after, before);
    }
  }

  lemma RequestKeepsInvariant(s: Store, max: nat, runId: Name, action: Name, args: Args, proposed: Proposed, expiresAt: int)
    requires Invariant(s, max)
    ensures Invariant(Request(s, max, runId, action, args, proposed, expiresAt), max)
  {
    var t := Request(s, max, runId, action, args, proposed, expiresAt);
    if t != s {
      var e, r := Requested(s.next, runId, action, args, expiresAt), t.records[s.next];
      AppendKeepsLog(s.(next := s.next + 1), e);
      NewRecordIsSound(s.log, r, e);
      forall id | id in s.records
        ensures RecordSound(t.log, s.records[id])
      {
        AppendKeepsRecord(s.log, e, s.records[id]);
      }
      forall q
        ensures |PendingOf(t.records, q)| <= max
      {
        NewRecordCounts(s.records, r, max, q);
      }
    }
  }

  /** What is granted is justified: the fingerprint of a held record can only
      have been made from parameters that are the same up to key order. */
  lemma GrantIsJustified(s: Store, max: nat, id: nat, runId: Name, action: Name, args: Args, proposed: Proposed, now: int)
    requires Invariant(s, max)
    requires id in s.records && Check(s.records[id], runId, action, args, proposed, now) == Granted
    ensures Justified(s.log + [Used(id, runId, action, args, now)], |s.log|)
  {
    var r, e := s.records[id], Used(id, runId, action, args, now);
    var log := s.log + [e];
    var i, k :| RequestedAt(s.log, i, r) && i < k < |s.log| && s.log[k] == Decided(r.id, Approved);
    assert Answers(log[i], log[k], log[|s.log|]);
  }

  lemma GrantKeepsInvariant(s: Store, max: nat, id: nat, runId: Name, action: Name, args: Args, proposed: Proposed, now: int)
    requires Invariant(s, max) && id in s.records && Check(s.records[id], runId, action, args, proposed, now) == Granted
    ensures Invariant(s.(records := s.records[id := s.records[id].(consumed := true)],
                         log := s.log + [Used(id, runId, action, args, now)]), max)
  {
    var r, e := s.records[id], Used(id, runId, action, args, now);
    GrantIsJustified(s, max, id, runId, action, args, proposed, now);
    AppendKeepsLog(s, e);
    UseKeepsRecord(s.log, r, e);
    UpdateKeepsInvariant(s, max, r.(consumed := true), [e]);
  }

  lemma ExpiryKeepsInvariant(s: Store, max: nat, id: nat)
    requires Invariant(s, max) && id in s.records
    ensures Invariant(s.(records := s.records[id := s.records[id].(status := Expired)]), max)
  {
    var q := s.records[id].(status := Expired);
    RecordKeeps(s.log, s.records[id], q);
    assert s.log + [] == s.log;
    UpdateKeepsInvariant(s, max, q, []);
  }

  lemma ConsumeKeepsInvariant(s: Store, max: nat, id: nat, runId: Name, action: Name, args: Args, proposed: Proposed, now: int)
    requires Invariant(s, max)
    ensures Invariant(Consume(s, id, runId, action, args, proposed, now), max)
  {
    SweepKeepsInvariant(s, max, now);
    var t := Sweep(s, now);
    var answer := CheckIn(s, id, runId, action, args, proposed, now);
    if answer == TooLate {
      ExpiryKeepsInvariant(t, max, id);
    } else if answer == Granted {
      GrantKeepsInvariant(t, max, id, runId, action, args, proposed, now);
    }
  }

  lemma UseKeepsRecord(log: seq<Event>, r: Record, e: Event)
    requires RecordSound(log, r) && r.status == Approved && e.Used? && e.id == r.id
    ensures RecordSound(log + [e], r.(consumed := true))
  {
    var q, after := r.(consumed := true), log + [e];
    var i, k :| RequestedAt(log, i, r) && i < k < |log| && log[k] == Decided(r.id, Approved);
    assert RequestedAt(after, i, q) && after[k] == Decided(r.id, Approved) && after[|log|] == e;
  }

  lemma ClearKeepsInvariant(s: Store, max: nat, runId: Name)
    requires Invariant(s, max)
    ensures Invariant(ClearRun(s, runId), max)
  {
    var t := ClearRun(s, runId);
    forall q
      ensures |PendingOf(t.records, q)| <= max
    {
      SubsetIsSmaller(PendingOf(t.records, q), PendingOf(s.records, q));
    }
  }

  lemma PerformKeepsInvariant(s: Store, max: nat, op: Op, now: int)
    requires Invariant(s, max) && Proper(op)
    ensures Invariant(Perform(s, max, op, now), max)
  {
    match op
    case DoRequest(runId, action, args, proposed, ttl) =>
      assert Perform(s, max, op, now) == Request(s, max, runId, action, args, proposed, now + ttl);
      RequestKeepsInvariant(s, max, runId, action, args, proposed, now + ttl);
    case DoSettle(id, verdict) =>
      assert Perform(s, max, op, now) == Settle(s, id, verdict, now);
      SettleKeepsInvariant(s, max, id, verdict, now);
    case DoConsume(id, runId, action, args, proposed) =>
      assert Perform(s, max, op, now) == Consume(s, id, runId, action, args, proposed, now);
      ConsumeKeepsInvariant(s, max, id, runId, action, args, proposed, now);
    case DoSweep =>
      SweepKeepsInvariant(s, max, now);
    case DoClear(runId) =>
      ClearKeepsInvariant(s, max, runId);
  }

  // ---------- whole traces ----------

  /** An operation with the clock reading it is given. */
  datatype Timed = At(op: Op, now: int)

  function Execute(max: nat, ops: seq<Timed>): Store {
    if ops == [] then EMPTY
    else Perform(Execute(max, ops[..|ops| - 1]), max, ops[|ops| - 1].op, ops[|ops| - 1].now)
  }

  ghost predicate AllProper(ops: seq<Timed>) {
    forall i :: 0 <= i < |ops| ==> Proper(ops[i].op)
  }

  lemma {:induction false} ExecuteKeepsInvariant(max: nat, ops: seq<Timed>)
    requires AllProper(ops)
    ensures Invariant(Execute(max, ops), max)
  {
    if ops == [] {
      forall runId
        ensures |PendingOf(EMPTY.records, runId)| <= max
      {
        assert PendingOf(EMPTY.records, runId) == {};
      }
    } else {
      var earlier := ops[..|ops| - 1];
      ExecuteKeepsInvariant(max, earlier);
      PerformKeepsInvariant(Execute(max, earlier), max, ops[|ops| - 1].op, ops[|ops| - 1].now);
    }
  }

  /** No approval is used twice, whatever the operations and the clock. */
  lemma UsedAtMostOnce(max: nat, ops: seq<Timed>, j: nat, k: nat)
    requires AllProper(ops)
    requires var log := Execute(max, ops).log; j < |log| && k < |log| && log[j].Used? && log[k].Used? && log[j].id == log[k].id
    ensures j == k
  {
    ExecuteKeepsInvariant(max, ops);
  }

  lemma PendingBounded(max: nat, ops: seq<Timed>, runId: Name)
    requires AllProper(ops)
    ensures |PendingOf(Execute(max, ops).records, runId)| <= max
  {
    ExecuteKeepsInvariant(max, ops);
  }

  predicate Settled(status: Status) {
    status == Denied || status == Expired || status == Cancelled
  }

  /** A gate check of the right run and action on a record past its expiry. */
  predicate LateCheck(r: Record, op: Op, now: int) {
    op.DoConsume? && op.id == r.id && op.runId == r.runId && op.action == r.action && now >= r.expiresAt
  }

  /** How an operation may change a held record. */
  predicate Evolves(r: Record, q: Record, op: Op, now: int) {
    && q.expiresAt == r.expiresAt && q.fingerprint == r.fingerprint
    && (r.consumed ==> q.consumed)
    && (r.status == Approved ==> q.status == Approved || q.status == Expired)
    && (Settled(r.status) ==> q.status == if LateCheck(r, op, now) then Expired else r.status)
  }

  lemma RequestEvolves(s: Store, max: nat, op: Op, now: int, id: nat)
    requires id in s.records && s.records[id].id == id < s.next && op.DoRequest?
    ensures id in Perform(s, max, op, now).records && Evolves(s.records[id], Perform(s, max, op, now).records[id], op, now)
  {
    assert id != s.next;
  }

  lemma SettleEvolves(s: Store, max: nat, op: Op, now: int, id: nat)
    requires id in s.records && s.records[id].id == id < s.next && op.DoSettle?
    ensures id in Perform(s, max, op, now).records && Evolves(s.records[id], Perform(s, max, op, now).records[id], op, now)
  {
  }

  lemma ConsumeEvolves(s: Store, max: nat, op: Op, now: int, id: nat)
    requires id in s.records && s.records[id].id == id < s.next && op.DoConsume?
    ensures id in Perform(s, max, op, now).records && Evolves(s.records[id], Perform(s, max, op, now).records[id], op, now)
  {
  }

  lemma HeldRecordsEvolve(s: Store, max: nat, op: Op, now: int, id: nat)
    requires Invariant(s, max) && id in s.records
    ensures var t := Perform(s, max, op, now); id in t.records ==> Evolves(s.records[id], t.records[id], op, now)
  {
    match op
    case DoRequest(_, _, _, _, _) => RequestEvolves(s, max, op, now, id);
    case DoSettle(_, _) => SettleEvolves(s, max, op, now, id);
    case DoConsume(_, _, _, _, _) => ConsumeEvolves(s, max, op, now, id);
    case _ =>
  }

  /** A denied or cancelled approval keeps its state under every operation but
      one: a late gate check for its own run and action turns it into EXPIRED.
      It changes exactly then. */
  lemma SettledChangesOnlyByLateCheck(s: Store, max: nat, op: Op, now: int, id: nat)
    requires Invariant(s, max) && id in s.records && Settled(s.records[id].status)
    ensures var t := Perform(s, max, op, now);
            id in t.records ==>
              t.records[id].status == if LateCheck(s.records[id], op, now) then Expired else s.records[id].status
  {
    HeldRecordsEvolve(s, max, op, now, id);
  }

  /** A denial that a late check rewrites as an expiry. */
  lemma DenialCanBecomeExpiry(run: Name, action: Name, args: Args)
    requires run.text != "" && action.text != ""
    ensures var s := Execute(1, [At(DoRequest(run, action, args, Omitted, 10), 0), At(DoSettle(0, Denied), 1)]);
            && 0 in s.records && s.records[0].status == Denied
            && Consume(s, 0, run, action, args, Omitted, 10).records[0].status == Expired
  {
    var first := At(DoRequest(run, action, args, Omitted, 10), 0);
    var ops := [first, At(DoSettle(0, Denied), 1)];
    assert ops[..1] == [first] && [first][..0] == [];
    assert PendingOf(EMPTY.records, run) == {};
    assert Execute(1, [first]) == Request(EMPTY, 1, run, action, args, Omitted, 10);
    assert Execute(1, ops) == Settle(Execute(1, [first]), 0, Denied, 1);
  }

  /** An approval that is granted only ever expires, and a use never reverts. */
  lemma ApprovedOnlyExpires(s: Store, max: nat, op: Op, now: int, id: nat)
    requires Invariant(s, max) && id in s.records
    ensures var t := Perform(s, max, op, now);
            id in t.records ==>
              && (s.records[id].status == Approved ==> t.records[id].status == Approved || t.records[id].status == Expired)
              && (s.records[id].consumed ==> t.records[id].consumed)
  {
    HeldRecordsEvolve(s, max, op, now, id);
  }

  /** A gate check is granted exactly when a peek with the same arguments reports
      the record, except that with a falsy proposed action the peek also takes one
      that matches only through its own stored proposed action. */
  lemma PeekPromisesGrant(r: Record, runId: Name, action: Name, args: Args, proposed: Proposed, now: int)
    ensures Check(r, runId, action, args, proposed, now) == Granted <==>
              && Peekable(r, runId, action, args, proposed, now)
              && !(proposed == Falsy && FingerprintParams(action, args) != r.fingerprint)
  {
  }

  /** The reason a gate check gives for refusing is true of the record. */
  lemma RefusalIsTrue(s: Store, id: nat, runId: Name, action: Name, args: Args, proposed: Proposed, now: int)
    ensures match CheckIn(s, id, runId, action, args, proposed, now)
            case Granted => id in s.records
            case NotFound => id !in s.records
            case OtherRun => id in s.records && s.records[id].runId != runId
            case OtherAction => id in s.records && s.records[id].runId == runId && s.records[id].action != action
            case TooLate => id in s.records && now >= s.records[id].expiresAt
            case NotApproved(status) => id in s.records && status != Approved && s.records[id].status == status && now < s.records[id].expiresAt
            case AlreadyUsed => id in s.records && s.records[id].status == Approved && s.records[id].consumed
            case Mismatch => id in s.records && FingerprintParams(action, args) != s.records[id].fingerprint
  {
  }

  /** In every reachable store the exception does not arise. */
  lemma PeekThenConsumeSucceeds(max: nat, ops: seq<Timed>, id: nat, runId: Name, action: Name, args: Args, proposed: Proposed, now: int)
    requires AllProper(ops)
    requires var s := Sweep(Execute(max, ops), now); id in s.records && Peekable(s.records[id], runId, action, args, proposed, now)
    ensures CheckIn(Execute(max, ops), id, runId, action, args, proposed, now) == Granted
  {
    ExecuteKeepsInvariant(max, ops);
    var s := Execute(max, ops);
    var r := s.records[id];
    assert RecordSound(s.log, r);
    var i :| RequestedAt(s.log, i, r);
    assert r.fingerprint.OfParams?;
    PeekPromisesGrant(Swept(r, now), runId, action, args, proposed, now);
  }
}
