// Sealed checkpoints, their validation, and the bounded store that holds them.
module Checkpoints {
  import opened Wrappers
  import opened RunStates

  type RunId = Name
  type Key = Name

  const VERSION := 1
  const MAX_AGE_MS := 7 * 24 * 60 * 60 * 1000

  /** The parts of a runtime snapshot that recovery writes back. `shaped` says
      that the task, execution and budget sections are all present. */
  datatype Snapshot = Snapshot(shaped: bool, status: Option<Status>, model: Option<bool>,
                               spend: Option<real>, currentStep: Option<int>, totalSteps: Option<int>)

  datatype Turn = Turn(role: string, content: string)

  /** The conversation and counters of a run's control record. */
  datatype Control = Control(messages: seq<Turn>, history: seq<Turn>, tokens: map<string, nat>,
                             toolCalls: nat, retries: nat, triedModels: set<string>,
                             completedCheckpoints: nat, heuristicToolUsed: bool,
                             lastUserMessage: string, latency: Option<map<string, real>>)

  /** The integrity digest, taken as injective on what it covers. */
  datatype Seal = Seal(runId: RunId, kind: string, step: Option<int>, snapshot: Option<Snapshot>)

  datatype Checkpoint = Checkpoint(id: string, runId: RunId, kind: string, timestamp: Option<int>,
                                   snapshot: Option<Snapshot>, control: Option<Control>,
                                   step: Option<int>, key: Key, version: Option<int>,
                                   completed: bool, integrity: Option<Seal>)

  datatype Code = Usable | Missing | BadShape | RunMismatch | BadVersion | Incomplete | Stale | Corrupt

  function SealOf(cp: Checkpoint): Seal {
    Seal(cp.runId, cp.kind, cp.step, cp.snapshot)
  }

  function NewCheckpoint(id: string, runId: RunId, kind: string, now: int, snapshot: Snapshot,
                         control: Option<Control>, step: int, key: Key): Checkpoint {
    Checkpoint(id, runId, kind, Some(now), Some(snapshot), control, Some(step), key, Some(VERSION), false,
               Some(Seal(runId, kind, Some(step), Some(snapshot))))
  }

  function Validate(cp: Option<Checkpoint>, runId: RunId, now: int, maxAgeMs: int): Code {
    match cp
    case None => Missing
    case Some(c) =>
      if c.step.None? || c.snapshot.None? then BadShape
      else if runId.text != "" && c.runId != runId then RunMismatch
      else if c.version.None? || c.version.value < 1 || c.version.value > VERSION then BadVersion
      else if !c.completed then Incomplete
      else if c.timestamp.None? then BadShape
      else if now - c.timestamp.value > maxAgeMs then Stale
      else if c.integrity.Some? && c.integrity.value != SealOf(c) then Corrupt
      else Usable
  }

  /** Every check but the one of the seal. */
  predicate Plausible(c: Checkpoint, runId: RunId, now: int, maxAgeMs: int) {
    && c.step.Some? && c.snapshot.Some? && (runId.text == "" || c.runId == runId)
    && c.version.Some? && 1 <= c.version.value <= VERSION && c.completed
    && c.timestamp.Some? && now - c.timestamp.value <= maxAgeMs
  }

  /** What the seal adds to the other checks: it is absent or the checkpoint's own. */
  lemma UsableIff(c: Checkpoint, runId: RunId, now: int, maxAgeMs: int)
    ensures Validate(Some(c), runId, now, maxAgeMs) == Usable <==>
              Plausible(c, runId, now, maxAgeMs) && (c.integrity.None? || c.integrity == Some(SealOf(c)))
  {
  }

  predicate SameCovered(a: Checkpoint, b: Checkpoint) {
    a.runId == b.runId && a.kind == b.kind && a.step == b.step && a.snapshot == b.snapshot
  }

  /** Under the seal of a usable checkpoint, another one is usable exactly when it
      passes the other checks and has the same covered parts: run, type, step
      and snapshot cannot be altered without making a new seal. */
  lemma TamperingIsDetected(cp: Checkpoint, forged: Checkpoint, runId: RunId, now: int, maxAgeMs: int, forgedId: RunId, later: int, horizon: int)
    requires Validate(Some(cp), runId, now, maxAgeMs) == Usable && cp.integrity.Some? && forged.integrity == cp.integrity
    ensures Validate(Some(forged), forgedId, later, horizon) == Usable <==> Plausible(forged, forgedId, later, horizon) && SameCovered(cp, forged)
  {
    UsableIff(cp, runId, now, maxAgeMs);
    UsableIff(forged, forgedId, later, horizon);
  }

  /** Without its seal, a usable checkpoint passes with any other snapshot. */
  lemma StrippedSealIsNotChecked(cp: Checkpoint, other: Snapshot, runId: RunId, now: int, maxAgeMs: int)
    requires Validate(Some(cp), runId, now, maxAgeMs) == Usable
    ensures Validate(Some(cp.(snapshot := Some(other), integrity := None)), runId, now, maxAgeMs) == Usable
  {
  }

  /** A checkpoint that the store itself made and completed is usable by its
      own run exactly until it is older than the horizon. */
  lemma OwnCheckpointUsableUntilStale(id: string, runId: RunId, kind: string, made: int, s: Snapshot,
                                      control: Option<Control>, step: int, key: Key, now: int, maxAgeMs: int)
    ensures var cp := NewCheckpoint(id, runId, kind, made, s, control, step, key).(completed := true);
            && (Validate(Some(cp), runId, now, maxAgeMs) == Usable <==> now <= made + maxAgeMs)
            && (Validate(Some(cp), runId, now, maxAgeMs) == Stale <==> now > made + maxAgeMs)
  {
  }

  // ---------- control records ----------

  function Last<T>(s: seq<T>, n: nat): (r: seq<T>)
    ensures |r| == (if |s| <= n then |s| else n)
    ensures forall i :: 0 <= i < |r| ==> r[i] == s[|s| - |r| + i]
  {
    if |s| <= n then s else s[|s| - n..]
  }

  function CaptureControl(c: Control): Control {
    c.(messages := Last(c.messages, 300), history := Last(c.history, 300),
       lastUserMessage := if |c.lastUserMessage| <= 4000 then c.lastUserMessage else c.lastUserMessage[..4000])
  }

  /** A capture has the newest 300 messages and turns, in order, and the first 4000
      characters of the last user message; everything else is as it was. */
  lemma CaptureKeepsNewest(c: Control)
    ensures var k := CaptureControl(c);
            && (forall i :: 0 <= i < |k.messages| ==> k.messages[i] == c.messages[|c.messages| - |k.messages| + i])
            && (forall i :: 0 <= i < |k.history| ==> k.history[i] == c.history[|c.history| - |k.history| + i])
            && |k.messages| == (if |c.messages| < 300 then |c.messages| else 300)
            && |k.history| == (if |c.history| < 300 then |c.history| else 300)
            && k.lastUserMessage <= c.lastUserMessage
            && |k.lastUserMessage| == (if |c.lastUserMessage| < 4000 then |c.lastUserMessage| else 4000)
            && k.(messages := c.messages, history := c.history, lastUserMessage := c.lastUserMessage) == c
  {
  }

  /** Restoring gives back everything captured, but for latency entries that only
      the live record has. */
  lemma RestoreGivesBack(live: Control, snap: Control)
    ensures RestoreControl(live, snap).(latency := snap.latency) == snap
    ensures snap.latency.Some? ==>
              var l := RestoreControl(live, snap).latency;
              && l.Some? && (forall k :: k in snap.latency.value ==> k in l.value && l.value[k] == snap.latency.value[k])
              && (forall k :: k in l.value && k !in snap.latency.value ==> live.latency.Some? && k in live.latency.value && l.value[k] == live.latency.value[k])
    ensures snap.latency.None? ==> RestoreControl(live, snap).latency == live.latency
  {
  }

  function RestoreControl(live: Control, snap: Control): Control {
    snap.(latency := match (live.latency, snap.latency)
                     case (_, None) => live.latency
                     case (None, Some(_)) => snap.latency
                     case (Some(l), Some(s)) => Some(l + s))
  }

  /** Restoring a captured record onto any live record and capturing again
      gives the first capture back, exactly when the live record has no
      latency entry of its own that the capture lacks. */
  lemma CaptureRestoreCapture(live: Control, c: Control)
    ensures CaptureControl(RestoreControl(live, CaptureControl(c))) == CaptureControl(c) <==>
            (live.latency.Some? ==> c.latency.Some? && live.latency.value.Keys <= c.latency.value.Keys)
  {
    if live.latency.Some? && c.latency.Some? {
      var l, s := live.latency.value, c.latency.value;
      assert (l + s).Keys == l.Keys + s.Keys;
      if l.Keys <= s.Keys {
        assert l + s == s;
      }
    }
  }

  // ---------- the store ----------

  function KeysOf(s: seq<Checkpoint>): (r: seq<Key>)
    ensures |r| == |s|
    ensures forall i :: 0 <= i < |s| ==> r[i] == s[i].key
  {
    seq(|s|, i requires 0 <= i < |s| => s[i].key)
  }

  function KeyLists(held: map<RunId, seq<Checkpoint>>): (r: map<RunId, seq<Key>>)
    ensures r.Keys == held.Keys
  {
    map q | q in held :: KeysOf(held[q])
  }

  ghost function Elements(s: seq<Key>): set<Key> {
    set k | k in s
  }

  lemma ElementsGrow(s: seq<Key>, i: nat)
    requires i < |s|
    ensures Elements(s[..i + 1]) == Elements(s[..i]) + {s[i]}
  {
    assert s[..i + 1] == s[..i] + [s[i]];
  }

  ghost predicate NoDuplicates(s: seq<Key>) {
    forall i, j :: 0 <= i < j < |s| ==> s[i] != s[j]
  }

  /** The index holds exactly the keys of the lists. */
  ghost predicate Indexed(lists: map<RunId, seq<Key>>, keys: set<Key>) {
    && (forall r :: r in lists ==> Elements(lists[r]) <= keys)
    && (forall k :: k in keys ==> exists r :: r in lists && k in lists[r])
  }

  /** No key occurs twice, neither within a run nor across runs. */
  ghost predicate Unshared(lists: map<RunId, seq<Key>>) {
    && (forall r :: r in lists ==> NoDuplicates(lists[r]))
    && (forall r, q :: r in lists && q in lists && r != q ==> Elements(lists[r]) !! Elements(lists[q]))
  }

  /** Each run holds the newest of what it was given, in order. */
  ghost predicate Newest(lists: map<RunId, seq<Key>>, accepted: map<RunId, seq<Key>>, max: nat) {
    && (forall r :: r in lists <==> r in accepted)
    && (forall r :: r in lists ==> lists[r] == Last(accepted[r], max))
  }

  /** Replacing one run's list by one drawn from its own and unused keys. */
  lemma ReplaceRun(lists: map<RunId, seq<Key>>, keys: set<Key>, r: RunId, before: seq<Key>, after: seq<Key>)
    requires Indexed(lists, keys) && Unshared(lists)
    requires before == if r in lists then lists[r] else []
    requires NoDuplicates(after) && Elements(after) * keys <= Elements(before)
    ensures Indexed(lists[r := after], keys - Elements(before) + Elements(after))
    ensures Unshared(lists[r := after])
  {
    var lists', keys' := lists[r := after], keys - Elements(before) + Elements(after);
    forall k | k in keys'
      ensures exists q :: q in lists' && k in lists'[q]
    {
      if k in Elements(after) {
        assert k in lists'[r];
      } else {
        var q :| q in lists && k in lists[q];
        assert q != r && k in lists'[q];
      }
    }
    forall q | q in lists'
      ensures Elements(lists'[q]) <= keys' && (q != r ==> Elements(lists'[q]) !! Elements(after))
    {
    }
  }

  lemma RemoveRun(lists: map<RunId, seq<Key>>, keys: set<Key>, r: RunId, before: seq<Key>)
    requires Indexed(lists, keys) && Unshared(lists)
    requires before == if r in lists then lists[r] else []
    ensures Indexed(lists - {r}, keys - Elements(before))
    ensures Unshared(lists - {r})
  {
    forall k | k in keys - Elements(before)
      ensures exists q :: q in lists - {r} && k in (lists - {r})[q]
    {
      var q :| q in lists && k in lists[q];
      assert q in lists - {r} && k in (lists - {r})[q];
    }
  }

  /** Appending a fresh key, and dropping the oldest when that is one too many. */
  lemma AppendFresh(before: seq<Key>, key: Key, keys: set<Key>)
    requires NoDuplicates(before) && Elements(before) <= keys && key !in keys
    ensures NoDuplicates(before + [key])
    ensures Elements(before + [key]) * keys <= Elements(before)
    ensures keys - Elements(before) + Elements(before + [key]) == keys + {key}
    ensures |before| > 0 ==>
              && NoDuplicates((before + [key])[1..])
              && Elements((before + [key])[1..]) * keys <= Elements(before)
              && keys - Elements(before) + Elements((before + [key])[1..]) == keys + {key} - {before[0]}
  {
    assert Elements(before + [key]) == Elements(before) + {key};
    if |before| > 0 {
      assert before == [before[0]] + before[1..];
      assert (before + [key])[1..] == before[1..] + [key];
      assert before[0] !in before[1..];
      assert Elements((before + [key])[1..]) == Elements(before) - {before[0]} + {key};
    }
  }

  lemma LastAppend<T>(s: seq<T>, x: T, n: nat)
    requires n > 0
    ensures Last(s + [x], n) == Last(Last(s, n) + [x], n)
  {
  }

  ghost predicate IsNewestCompleted(s: seq<Checkpoint>, kind: Option<string>, i: int) {
    && 0 <= i < |s|
    && s[i].completed && (kind.Some? ==> s[i].kind == kind.value)
    && forall j :: i < j < |s| && s[j].completed ==> kind.Some? && s[j].kind != kind.value
  }

  predicate Eligible(cp: Checkpoint, kind: Option<string>) {
    cp.completed && (kind.None? || cp.kind == kind.value)
  }

  ghost predicate FirstWithId(held: seq<Checkpoint>, id: string, cp: Option<Checkpoint>) {
    match cp
    case None => forall c :: c in held ==> c.id != id
    case Some(c) => exists i :: FirstAt(held, id, i) && held[i] == c
  }

  ghost predicate FirstAt(held: seq<Checkpoint>, id: string, i: int) {
    0 <= i < |held| && held[i].id == id && forall j :: 0 <= j < i ==> held[j].id != id
  }

  method FindIndex(held: seq<Checkpoint>, id: string) returns (i: nat)
    ensures i <= |held|
    ensures i < |held| ==> FirstAt(held, id, i)
    ensures i == |held| ==> forall c :: c in held ==> c.id != id
  {
    i := 0;
    while i < |held|
      invariant 0 <= i <= |held|
      invariant forall j :: 0 <= j < i ==> held[j].id != id
    {
      if held[i].id == id {
        return;
      }
      i := i + 1;
    }
  }

  method FindById(held: seq<Checkpoint>, id: string) returns (cp: Option<Checkpoint>)
    ensures FirstWithId(held, id, cp)
  {
    var i := FindIndex(held, id);
    cp := if i < |held| then Some(held[i]) else None;
  }

  function HeldBy(held: map<RunId, seq<Checkpoint>>, r: RunId): seq<Checkpoint> {
    if r in held then held[r] else []
  }

  ghost predicate HoldsKey(held: map<RunId, seq<Checkpoint>>, k: Key) {
    exists r :: r in held && k in KeysOf(held[r])
  }

  function ListOf(lists: map<RunId, seq<Key>>, r: RunId): seq<Key> {
    if r in lists then lists[r] else []
  }

  /** What every operation of the store keeps. */
  ghost predicate StoreInvariant(lists: map<RunId, seq<Key>>, keys: set<Key>, accepted: map<RunId, seq<Key>>, max: nat) {
    Indexed(lists, keys) && Unshared(lists) && Newest(lists, accepted, max)
  }

  lemma IndexAnswers(held: map<RunId, seq<Checkpoint>>, keys: set<Key>, k: Key)
    requires Indexed(KeyLists(held), keys)
    ensures k in keys <==> HoldsKey(held, k)
  {
    if k in keys {
      var r :| r in KeyLists(held) && k in KeyLists(held)[r];
      assert k in KeysOf(held[r]);
    }
    if HoldsKey(held, k) {
      var r :| r in held && k in KeysOf(held[r]);
      assert k in Elements(KeyLists(held)[r]);
    }
  }

  lemma UpdateKeyLists(held: map<RunId, seq<Checkpoint>>, r: RunId, list: seq<Checkpoint>)
    ensures KeyLists(held[r := list]) == KeyLists(held)[r := KeysOf(list)]
  {
  }

  lemma RemoveKeyLists(held: map<RunId, seq<Checkpoint>>, r: RunId)
    ensures KeyLists(held - {r}) == KeyLists(held) - {r}
  {
  }

  lemma AppendKeepsNewest(lists: map<RunId, seq<Key>>, accepted: map<RunId, seq<Key>>, max: nat, r: RunId, key: Key)
    requires max > 0 && Newest(lists, accepted, max)
    ensures Newest(lists[r := Last(ListOf(lists, r) + [key], max)], accepted[r := ListOf(accepted, r) + [key]], max)
  {
    LastAppend(ListOf(accepted, r), key, max);
    assert ListOf(lists, r) == Last(ListOf(accepted, r), max);
  }

  function KeysAfter(before: seq<Key>, key: Key, keys: set<Key>, max: nat): set<Key>
    requires max > 0
  {
    if |before| == max then keys + {key} - {before[0]} else keys + {key}
  }

  lemma AppendKeepsIndex(lists: map<RunId, seq<Key>>, keys: set<Key>, max: nat, r: RunId, key: Key)
    requires max > 0 && Indexed(lists, keys) && Unshared(lists) && key !in keys && |ListOf(lists, r)| <= max
    ensures Indexed(lists[r := Last(ListOf(lists, r) + [key], max)], KeysAfter(ListOf(lists, r), key, keys, max))
    ensures Unshared(lists[r := Last(ListOf(lists, r) + [key], max)])
  {
    var before := ListOf(lists, r);
    AppendFresh(before, key, keys);
    ReplaceRun(lists, keys, r, before, Last(before + [key], max));
  }

  lemma ListOfHeld(held: map<RunId, seq<Checkpoint>>, r: RunId)
    ensures ListOf(KeyLists(held), r) == KeysOf(HeldBy(held, r))
  {
  }

  lemma KeysOfLast(s: seq<Checkpoint>, cp: Checkpoint, max: nat)
    ensures KeysOf(Last(s + [cp], max)) == Last(KeysOf(s) + [cp.key], max)
  {
  }

  lemma CreatedKeyLists(held: map<RunId, seq<Checkpoint>>, r: RunId, cp: Checkpoint, max: nat)
    ensures KeyLists(held[r := Last(HeldBy(held, r) + [cp], max)])
            == KeyLists(held)[r := Last(ListOf(KeyLists(held), r) + [cp.key], max)]
  {
    ListOfHeld(held, r);
    KeysOfLast(HeldBy(held, r), cp, max);
    UpdateKeyLists(held, r, Last(HeldBy(held, r) + [cp], max));
  }

  lemma HeldIsBounded(lists: map<RunId, seq<Key>>, accepted: map<RunId, seq<Key>>, max: nat, r: RunId)
    requires Newest(lists, accepted, max)
    ensures |ListOf(lists, r)| <= max
  {
    if r in lists {
      assert lists[r] == Last(accepted[r], max);
    }
  }

  lemma CreateKeepsInvariant(held: map<RunId, seq<Checkpoint>>, keys: set<Key>, accepted: map<RunId, seq<Key>>, max: nat,
                             r: RunId, cp: Checkpoint)
    requires max > 0 && StoreInvariant(KeyLists(held), keys, accepted, max) && cp.key !in keys
    ensures |HeldBy(held, r)| <= max
    ensures StoreInvariant(KeyLists(held[r := Last(HeldBy(held, r) + [cp], max)]),
                           KeysAfter(KeysOf(HeldBy(held, r)), cp.key, keys, max),
                           accepted[r := ListOf(accepted, r) + [cp.key]], max)
  {
    var lists := KeyLists(held);
    ListOfHeld(held, r);
    HeldIsBounded(lists, accepted, max, r);
    CreatedKeyLists(held, r, cp, max);
    AppendKeepsNewest(lists, accepted, max, r, cp.key);
    AppendKeepsIndex(lists, keys, max, r, cp.key);
  }

  lemma ClearKeepsInvariant(held: map<RunId, seq<Checkpoint>>, keys: set<Key>, accepted: map<RunId, seq<Key>>, max: nat, r: RunId)
    requires StoreInvariant(KeyLists(held), keys, accepted, max)
    ensures StoreInvariant(KeyLists(held - {r}), keys - Elements(KeysOf(HeldBy(held, r))), accepted - {r}, max)
  {
    assert KeysOf(HeldBy(held, r)) == ListOf(KeyLists(held), r);
    RemoveRun(KeyLists(held), keys, r, ListOf(KeyLists(held), r));
    RemoveKeyLists(held, r);
  }

  /** Marks one held checkpoint completed. */
  function Completing(held: map<RunId, seq<Checkpoint>>, r: RunId, i: nat): map<RunId, seq<Checkpoint>> {
    if r !in held || i >= |held[r]| then held else held[r := held[r][i := held[r][i].(completed := true)]]
  }

  lemma CompleteKeepsKeys(held: map<RunId, seq<Checkpoint>>, r: RunId, i: nat)
    requires r in held && i < |held[r]|
    ensures KeyLists(Completing(held, r, i)) == KeyLists(held)
  {
    var list := held[r][i := held[r][i].(completed := true)];
    assert KeysOf(list) == KeysOf(held[r]);
    UpdateKeyLists(held, r, list);
  }

  /** The list is as it was but for the i-th checkpoint, which is completed. */
  predicate MarkedAt(before: seq<Checkpoint>, after: seq<Checkpoint>, i: nat) {
    && i < |before| == |after| && after[i] == before[i].(completed := true)
    && forall j :: 0 <= j < |before| && j != i ==> after[j] == before[j]
  }

  lemma CompletingMarks(held: map<RunId, seq<Checkpoint>>, r: RunId, i: nat)
    requires r in held && i < |held[r]|
    ensures var t := Completing(held, r, i);
            && t.Keys == held.Keys && MarkedAt(held[r], t[r], i)
            && forall q :: q in held && q != r ==> t[q] == held[q]
  {
  }

  class CheckpointManager {
    var checkpoints: map<RunId, seq<Checkpoint>>
    var idempotencyKeys: set<Key>
    const maxCheckpoints: nat
    /** Keys of all checkpoints accepted for a run since it was last cleared. */
    ghost var accepted: map<RunId, seq<Key>>

    ghost predicate Valid()
      reads this
    {
      maxCheckpoints > 0 && StoreInvariant(KeyLists(checkpoints), idempotencyKeys, accepted, maxCheckpoints)
    }

    function Held(runId: RunId): seq<Checkpoint>
      reads this
    {
      HeldBy(checkpoints, runId)
    }

    constructor (max: nat)
      requires max > 0
      ensures Valid() && maxCheckpoints == max && checkpoints == map[]
    {
      maxCheckpoints := max;
      checkpoints, idempotencyKeys, accepted := map[], {}, map[];
    }

    /** Adds a checkpoint, dropping the run's oldest when that is one too many. */
    method Push(runId: RunId, cp: Checkpoint)
      requires maxCheckpoints > 0 && |Held(runId)| <= maxCheckpoints
      modifies this
      ensures checkpoints == old(checkpoints)[runId := Last(old(Held(runId)) + [cp], maxCheckpoints)]
      ensures idempotencyKeys == KeysAfter(KeysOf(old(Held(runId))), cp.key, old(idempotencyKeys), maxCheckpoints)
      ensures accepted == old(accepted)[runId := ListOf(old(accepted), runId) + [cp.key]]
    {
      idempotencyKeys := idempotencyKeys + {cp.key};
      var list := Held(runId) + [cp];
      if |list| > maxCheckpoints {
        idempotencyKeys := idempotencyKeys - {list[0].key};
        list := list[1..];
      }
      accepted := accepted[runId := ListOf(accepted, runId) + [cp.key]];
      checkpoints := checkpoints[runId := list];
    }

    method CreateCheckpoint(runId: RunId, cp: Checkpoint) returns (duplicate: bool)
      requires Valid()
      modifies this
      ensures Valid()
      ensures duplicate == old(HoldsKey(checkpoints, cp.key))
      ensures duplicate ==> checkpoints == old(checkpoints) && idempotencyKeys == old(idempotencyKeys) && accepted == old(accepted)
      ensures !duplicate ==> checkpoints == old(checkpoints)[runId := Last(old(Held(runId)) + [cp], maxCheckpoints)]
      ensures !duplicate ==> accepted == old(accepted)[runId := ListOf(old(accepted), runId) + [cp.key]]
    {
      IndexAnswers(checkpoints, idempotencyKeys, cp.key);
      duplicate := cp.key in idempotencyKeys;
      if !duplicate {
        CreateKeepsInvariant(checkpoints, idempotencyKeys, accepted, maxCheckpoints, runId, cp);
        Push(runId, cp);
      }
    }

    /** The only kind of checkpoint automatic recovery may resume from. */
    method GetLastCompletedCheckpoint(runId: RunId, kind: Option<string>) returns (cp: Option<Checkpoint>)
      ensures cp.Some? ==> exists i :: IsNewestCompleted(Held(runId), kind, i) && Held(runId)[i] == cp.value
      ensures cp.None? ==> forall c :: c in Held(runId) && c.completed ==> kind.Some? && c.kind != kind.value
    {
      var list := Held(runId);
      var i := |list|;
      while i > 0
        invariant 0 <= i <= |list|
        invariant forall j :: i <= j < |list| ==> !Eligible(list[j], kind)
      {
        i := i - 1;
        if Eligible(list[i], kind) {
          assert IsNewestCompleted(list, kind, i);
          return Some(list[i]);
        }
      }
      cp := None;
    }

    method MarkCheckpointCompleted(runId: RunId, id: string) returns (found: bool)
      requires Valid()
      modifies this`checkpoints
      ensures Valid()
      ensures !found ==> checkpoints == old(checkpoints) && forall c :: c in old(Held(runId)) ==> c.id != id
      ensures found ==> exists i: nat :: FirstAt(old(Held(runId)), id, i) && MarkedAt(old(Held(runId)), Held(runId), i)
      ensures checkpoints.Keys == old(checkpoints).Keys && forall r :: r in checkpoints && r != runId ==> checkpoints[r] == old(checkpoints)[r]
    {
      var i := FindIndex(Held(runId), id);
      if i == |Held(runId)| {
        return false;
      }
      CompleteKeepsKeys(checkpoints, runId, i);
      CompletingMarks(checkpoints, runId, i);
      checkpoints := Completing(checkpoints, runId, i);
      found := true;
    }

    method DropKeys(list: seq<Checkpoint>)
      modifies this`idempotencyKeys
      ensures idempotencyKeys == old(idempotencyKeys) - Elements(KeysOf(list))
    {
      var i := 0;
      while i < |list|
        invariant 0 <= i <= |list|
        invariant idempotencyKeys == old(idempotencyKeys) - Elements(KeysOf(list)[..i])
      {
        idempotencyKeys := idempotencyKeys - {list[i].key};
        ElementsGrow(KeysOf(list), i);
        i := i + 1;
      }
      assert KeysOf(list)[..i] == KeysOf(list);
    }

    method ClearRun(runId: RunId)
      requires Valid()
      modifies this
      ensures Valid()
      ensures checkpoints == old(checkpoints) - {runId} && accepted == old(accepted) - {runId}
    {
      ClearKeepsInvariant(checkpoints, idempotencyKeys, accepted, maxCheckpoints, runId);
      DropKeys(Held(runId));
      checkpoints := checkpoints - {runId};
      accepted := accepted - {runId};
    }
  }
}
