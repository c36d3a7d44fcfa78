// The event bus: one global sequence, bounded logs per run, replay with gap
// detection, and payloads rewritten to the privacy mode of their run.
module EventBus {
  import opened Wrappers
  import opened Json
  import opened Privacy

  type RunId = Name

  /** The n-th connection of a client. */
  datatype Conn = Conn(client: Name, n: nat)

  datatype Stamp = Stamp(n: nat, kind: string)

  datatype Event = Event(stamp: Stamp, payload: Json)

  /** The bounds, and how a payload is rewritten to a privacy mode. */
  datatype Limits = Limits(replay: nat, runs: nat, subscribers: nat, clean: (Json, Mode) -> Json)

  ghost predicate Sane(c: Limits) {
    c.replay > 0 && c.runs > 0 && c.subscribers > 0 && forall v, mode :: c.clean(c.clean(v, mode), mode) == c.clean(v, mode)
  }

  /** The privacy rules of the runtime are sane. */
  lemma PrivacyIsSane(replay: nat, runs: nat, subscribers: nat)
    requires replay > 0 && runs > 0 && subscribers > 0
    ensures Sane(Limits(replay, runs, subscribers, Clean))
  {
    forall v, mode
      ensures Clean(Clean(v, mode), mode) == Clean(v, mode)
    {
      SanitizeIdempotent(KEYS, v, mode, []);
    }
  }

  /** `history` records everything a run ever emitted. */
  datatype Bus = Bus(globalSeq: nat, logs: map<RunId, seq<Event>>, order: seq<RunId>, runSeq: map<RunId, nat>,
                     subscribers: map<RunId, seq<Conn>>, modes: map<RunId, Mode>, history: map<RunId, seq<Stamp>>)

  const EMPTY := Bus(0, map[], [], map[], map[], map[], map[])

  function Stamps(log: seq<Event>): (r: seq<Stamp>)
    ensures |r| == |log| && forall i :: 0 <= i < |log| ==> r[i] == log[i].stamp
  {
    seq(|log|, i requires 0 <= i < |log| => log[i].stamp)
  }

  function LogOf(logs: map<RunId, seq<Event>>, r: RunId): seq<Event> {
    if r in logs then logs[r] else []
  }

  function HistoryOf(history: map<RunId, seq<Stamp>>, r: RunId): seq<Stamp> {
    if r in history then history[r] else []
  }

  function SubscribersOf(subscribers: map<RunId, seq<Conn>>, r: RunId): seq<Conn> {
    if r in subscribers then subscribers[r] else []
  }

  function Without(order: seq<RunId>, r: RunId): (o: seq<RunId>)
    ensures forall q :: q in o <==> q in order && q != r
  {
    if order == [] then [] else (if order[0] == r then [] else [order[0]]) + Without(order[1..], r)
  }

  function RemoveAll(s: seq<Conn>, dead: set<Conn>): (r: seq<Conn>)
    ensures |r| <= |s|
    ensures forall y :: y in r <==> y in s && y !in dead
  {
    if s == [] then [] else (if s[0] in dead then [] else [s[0]]) + RemoveAll(s[1..], dead)
  }

  // ---------- operations ----------

  datatype Kept = Kept(order: seq<RunId>, logs: map<RunId, seq<Event>>, runSeq: map<RunId, nat>)

  /** Drops the oldest logs while there are too many; a run that still has
      subscribers goes to the back instead, and pruning stops there. */
  function Prune(k: Kept, subscribers: map<RunId, seq<Conn>>, max: nat): Kept
    decreases |k.order|
  {
    if |k.order| <= max || k.order == [] || k.order[0].text == "" then k
    else if SubscribersOf(subscribers, k.order[0]) != [] then k.(order := k.order[1..] + [k.order[0]])
    else Prune(Kept(k.order[1..], k.logs - {k.order[0]}, k.runSeq - {k.order[0]}), subscribers, max)
  }

  function WithLog(k: Kept, subscribers: map<RunId, seq<Conn>>, r: RunId, max: nat): Kept {
    if r in k.logs then k else Prune(Kept(k.order + [r], k.logs[r := []], k.runSeq), subscribers, max)
  }

  function Opened(b: Bus, r: RunId, max: nat): Kept {
    WithLog(Kept(b.order, b.logs, b.runSeq), b.subscribers, r, max)
  }

  /** None stands for a payload that cannot be serialized. */
  function SafePayload(payload: Option<Json>): Json {
    match payload
    case None => Obj([Field(Ascii("_unserializable"), Bool(true))])
    case Some(Undef) => Null
    case Some(p) => p
  }

  function Recorded(c: Limits, modes: map<RunId, Mode>, r: RunId, payload: Option<Json>): Json {
    if r in modes then c.clean(SafePayload(payload), modes[r]) else SafePayload(payload)
  }

  function NewEvent(b: Bus, c: Limits, r: RunId, kind: string, payload: Option<Json>): Event {
    Event(Stamp(b.globalSeq + 1, kind), Recorded(c, b.modes, r, payload))
  }

  function Bounded(log: seq<Event>, max: nat): seq<Event> {
    if |log| > max then log[1..] else log
  }

  function Notified(subscribers: map<RunId, seq<Conn>>, r: RunId, dead: set<Conn>): map<RunId, seq<Conn>> {
    if r !in subscribers || subscribers[r] == [] then subscribers
    else
      var live := RemoveAll(subscribers[r], dead);
      if live == [] then subscribers - {r} else subscribers[r := live]
  }

  function Append(b: Bus, c: Limits, r: RunId, e: Event, dead: set<Conn>): Bus {
    var k := Opened(b, r, c.runs);
    Bus(e.stamp.n, k.logs[r := Bounded(LogOf(k.logs, r) + [e], c.replay)], k.order, k.runSeq[r := e.stamp.n],
        Notified(b.subscribers, r, dead), b.modes, b.history[r := HistoryOf(b.history, r) + [e.stamp]])
  }

  function Emit(b: Bus, c: Limits, r: RunId, kind: string, payload: Option<Json>, dead: set<Conn>): Bus {
    Append(b, c, r, NewEvent(b, c, r, kind, payload), dead)
  }

  function Cleaned(c: Limits, log: seq<Event>, mode: Mode): seq<Event> {
    seq(|log|, i requires 0 <= i < |log| => log[i].(payload := c.clean(log[i].payload, mode)))
  }

  function SetPrivacyMode(b: Bus, c: Limits, r: RunId, mode: Mode): Bus {
    if r.text == "" then b
    else b.(modes := b.modes[r := mode], logs := if r in b.logs then b.logs[r := Cleaned(c, b.logs[r], mode)] else b.logs)
  }

  /** A full set of subscribers sheds its oldest one. */
  function Subscribe(b: Bus, c: Limits, r: RunId, conn: Conn): Bus {
    var before := SubscribersOf(b.subscribers, r);
    var kept := if |before| >= c.subscribers && before != [] then before[1..] else before;
    b.(subscribers := b.subscribers[r := if conn in kept then kept else kept + [conn]])
  }

  function Unsubscribe(b: Bus, r: RunId, conn: Conn): Bus {
    if r !in b.subscribers then b
    else
      var kept := RemoveAll(b.subscribers[r], {conn});
      b.(subscribers := if kept == [] then b.subscribers - {r} else b.subscribers[r := kept])
  }

  function ClearRun(b: Bus, r: RunId): Bus {
    b.(logs := b.logs - {r}, order := Without(b.order, r), runSeq := b.runSeq - {r}, modes := b.modes - {r},
       subscribers := b.subscribers - {r})
  }

  datatype Replay = Replay(events: seq<Event>, gap: bool, oldest: nat, latest: nat)

  function Since(log: seq<Event>, n: int): seq<Event>
  {
    if log == [] then [] else if log[0].stamp.n > n then [log[0]] + Since(log[1..], n) else Since(log[1..], n)
  }

  function EventsSinceWithGap(b: Bus, r: RunId, n: int): Replay {
    var log := LogOf(b.logs, r);
    if log == [] then Replay([], false, 0, 0)
    else Replay(Since(log, n), n > 0 && n < log[0].stamp.n - 1, log[0].stamp.n, log[|log| - 1].stamp.n)
  }

  // ---------- what every operation keeps ----------

  predicate Increasing(h: seq<Stamp>) {
    && (forall i, j :: 0 <= i < j < |h| ==> h[i].n < h[j].n)
    && (forall i :: 0 <= i < |h| ==> h[i].n > 0)
  }

  predicate IsSuffix(s: seq<Stamp>, h: seq<Stamp>) {
    |s| <= |h| && h[|h| - |s|..] == s
  }

  ghost predicate Distinct(order: seq<RunId>) {
    forall i, j :: 0 <= i < j < |order| ==> order[i] != order[j]
  }

  ghost predicate Listed(order: seq<RunId>, logs: map<RunId, seq<Event>>) {
    && Distinct(order)
    && (forall r :: r in order <==> r in logs)
  }

  /** A retained log is a bounded, non-empty end of what its run ever emitted. */
  ghost predicate LogSound(b: Bus, c: Limits, r: RunId)
    requires r in b.logs
  {
    && 0 < |b.logs[r]| <= c.replay
    && IsSuffix(Stamps(b.logs[r]), HistoryOf(b.history, r))
    && (r in b.modes ==> AllClean(c, b.logs[r], b.modes[r]))
  }

  /** Every payload is a fixpoint of the mode. */
  ghost predicate AllClean(c: Limits, log: seq<Event>, mode: Mode) {
    forall i :: 0 <= i < |log| ==> c.clean(log[i].payload, mode) == log[i].payload
  }

  ghost predicate HistorySound(b: Bus, r: RunId) {
    var h := HistoryOf(b.history, r);
    Increasing(h) && forall i :: 0 <= i < |h| ==> h[i].n <= b.globalSeq
  }

  ghost predicate Invariant(b: Bus, c: Limits) {
    && Listed(b.order, b.logs)
    && (forall r :: HistorySound(b, r))
    && (forall r :: r in b.logs ==> LogSound(b, c, r))
    && (forall r :: r in b.runSeq ==> b.runSeq[r] <= b.globalSeq)
    && (forall r :: r in b.subscribers ==> |b.subscribers[r]| <= c.subscribers)
  }

  lemma DropFirst(order: seq<RunId>, logs: map<RunId, seq<Event>>)
    requires Listed(order, logs) && order != []
    ensures Listed(order[1..], logs - {order[0]})
  {
    assert order == [order[0]] + order[1..];
    forall q
      ensures q in order[1..] <==> q in logs - {order[0]}
    {
      assert q in order <==> q in logs;
    }
  }

  lemma RotateFirst(order: seq<RunId>, logs: map<RunId, seq<Event>>)
    requires Listed(order, logs) && order != []
    ensures Listed(order[1..] + [order[0]], logs)
  {
    assert order == [order[0]] + order[1..];
    forall q
      ensures q in order[1..] + [order[0]] <==> q in logs
    {
      assert q in order <==> q in logs;
    }
  }

  /** What remains is part of what was there, still listed. */
  ghost predicate PartOf(p: Kept, k: Kept) {
    && Listed(p.order, p.logs)
    && (forall r :: r in p.logs ==> r in k.logs && p.logs[r] == k.logs[r])
    && (forall r :: r in p.runSeq ==> r in k.runSeq && p.runSeq[r] == k.runSeq[r])
  }

  lemma PruneKeepsListing(k: Kept, subscribers: map<RunId, seq<Conn>>, max: nat)
    requires Listed(k.order, k.logs)
    ensures PartOf(Prune(k, subscribers, max), k)
    decreases |k.order|
  {
    if |k.order| > max && k.order[0].text != "" {
      if SubscribersOf(subscribers, k.order[0]) != [] {
        RotateFirst(k.order, k.logs);
      } else {
        DropFirst(k.order, k.logs);
        PruneKeepsListing(Kept(k.order[1..], k.logs - {k.order[0]}, k.runSeq - {k.order[0]}), subscribers, max);
      }
    }
  }

  predicate Removable(subscribers: map<RunId, seq<Conn>>, r: RunId) {
    r.text != "" && SubscribersOf(subscribers, r) == []
  }

  /** The n oldest logs go, each while there were too many and none of them watched. */
  ghost predicate DropsOldest(k: Kept, p: Kept, subscribers: map<RunId, seq<Conn>>, max: nat, n: nat) {
    && n <= |k.order| && (n > 0 ==> |k.order| - n >= max)
    && (forall i :: 0 <= i < n ==> Removable(subscribers, k.order[i]))
    && (forall r :: r in p.logs <==> r in k.logs && r !in k.order[..n])
    && (forall r :: r in p.logs ==> p.logs[r] == k.logs[r])
    && (forall r :: r in p.runSeq <==> r in k.runSeq && r !in k.order[..n])
    && (forall r :: r in p.runSeq ==> p.runSeq[r] == k.runSeq[r])
  }

  /** Then the bound is met, or the next oldest log is unnamed, or it is watched and
      has gone to the back. */
  ghost predicate StopsAt(k: Kept, p: Kept, subscribers: map<RunId, seq<Conn>>, max: nat, n: nat)
    requires n <= |k.order|
  {
    || (p.order == k.order[n..] && (|p.order| <= max || p.order[0].text == ""))
    || (|k.order| - n > max && SubscribersOf(subscribers, k.order[n]) != [] && p.order == k.order[n + 1..] + [k.order[n]])
  }

  lemma DropsOneMore(k: Kept, q: Kept, p: Kept, subscribers: map<RunId, seq<Conn>>, max: nat, n: nat)
    requires |k.order| > max && k.order != [] && Removable(subscribers, k.order[0])
    requires q == Kept(k.order[1..], k.logs - {k.order[0]}, k.runSeq - {k.order[0]})
    requires DropsOldest(q, p, subscribers, max, n)
    ensures DropsOldest(k, p, subscribers, max, n + 1)
  {
    assert k.order[..n + 1] == [k.order[0]] + q.order[..n];
    assert forall i :: 0 < i < n + 1 ==> k.order[i] == q.order[i - 1];
  }

  lemma StopsOneLater(k: Kept, q: Kept, p: Kept, subscribers: map<RunId, seq<Conn>>, max: nat, n: nat)
    requires k.order != [] && q.order == k.order[1..] && n <= |q.order| && StopsAt(q, p, subscribers, max, n)
    ensures StopsAt(k, p, subscribers, max, n + 1)
  {
    assert q.order[n..] == k.order[n + 1..];
  }

  ghost predicate PrunedBy(k: Kept, p: Kept, subscribers: map<RunId, seq<Conn>>, max: nat, n: nat) {
    DropsOldest(k, p, subscribers, max, n) && StopsAt(k, p, subscribers, max, n)
  }

  /** Pruning drops oldest unwatched logs, whole, no further than the bound; within
      the bound it changes nothing. */
  lemma {:induction false} PruneStopsAtBound(k: Kept, subscribers: map<RunId, seq<Conn>>, max: nat)
    ensures |k.order| <= max ==> Prune(k, subscribers, max) == k
    ensures exists n: nat :: PrunedBy(k, Prune(k, subscribers, max), subscribers, max, n)
    decreases |k.order|
  {
    var p := Prune(k, subscribers, max);
    if |k.order| > max && k.order != [] && Removable(subscribers, k.order[0]) {
      var q := Kept(k.order[1..], k.logs - {k.order[0]}, k.runSeq - {k.order[0]});
      PruneStopsAtBound(q, subscribers, max);
      var n: nat :| PrunedBy(q, p, subscribers, max, n);
      DropsOneMore(k, q, p, subscribers, max, n);
      StopsOneLater(k, q, p, subscribers, max, n);
      assert PrunedBy(k, p, subscribers, max, n + 1);
    } else {
      assert k.order[..0] == [] && k.order[0..] == k.order;
      assert PrunedBy(k, p, subscribers, max, 0);
    }
  }

  /** Pruning never removes the newest log, nor one with live subscribers. */
  lemma PruneSpares(k: Kept, subscribers: map<RunId, seq<Conn>>, max: nat, r: RunId)
    requires Listed(k.order, k.logs) && max > 0 && r in k.logs
    requires SubscribersOf(subscribers, r) != [] || k.order[|k.order| - 1] == r
    ensures r in Prune(k, subscribers, max).logs
    decreases |k.order|
  {
    if |k.order| > max && k.order[0].text != "" && SubscribersOf(subscribers, k.order[0]) == [] {
      DropFirst(k.order, k.logs);
      assert k.order[0] != k.order[|k.order| - 1];
      PruneSpares(Kept(k.order[1..], k.logs - {k.order[0]}, k.runSeq - {k.order[0]}), subscribers, max, r);
    }
  }

  lemma OpenedKeeps(b: Bus, c: Limits, r: RunId)
    requires Sane(c) && Invariant(b, c)
    ensures var k := Opened(b, r, c.runs);
            && Listed(k.order, k.logs) && r in k.logs && k.logs[r] == LogOf(b.logs, r)
            && (forall q :: q in k.logs && q != r ==> q in b.logs && k.logs[q] == b.logs[q])
            && (forall q :: q in k.runSeq ==> q in b.runSeq && k.runSeq[q] == b.runSeq[q])
  {
    if r !in b.logs {
      var k := Kept(b.order + [r], b.logs[r := []], b.runSeq);
      assert r !in b.order;
      assert Listed(k.order, k.logs);
      PruneKeepsListing(k, b.subscribers, c.runs);
      PruneSpares(k, b.subscribers, c.runs, r);
    }
  }

  lemma SuffixGrows(log: seq<Event>, h: seq<Stamp>, e: Event, max: nat)
    requires IsSuffix(Stamps(log), h) && max > 0 && |log| <= max
    ensures IsSuffix(Stamps(Bounded(log + [e], max)), h + [e.stamp]) && 0 < |Bounded(log + [e], max)| <= max
  {
    var g := h + [e.stamp];
    assert Stamps(log + [e]) == Stamps(log) + [e.stamp];
    assert g[|h| - |log|..] == Stamps(log) + [e.stamp];
    assert Stamps((log + [e])[1..]) == Stamps(log + [e])[1..];
    assert g[|h| - |log| + 1..] == g[|h| - |log|..][1..];
  }

  lemma NewEventIsClean(b: Bus, c: Limits, r: RunId, kind: string, payload: Option<Json>)
    requires Sane(c) && Invariant(b, c) && r in b.modes
    ensures AllClean(c, Bounded(LogOf(b.logs, r) + [NewEvent(b, c, r, kind, payload)], c.replay), b.modes[r])
  {
    assert r in b.logs ==> LogSound(b, c, r);
  }

  lemma NewLogIsSuffix(b: Bus, c: Limits, r: RunId, e: Event)
    requires Sane(c) && Invariant(b, c)
    ensures var log := Bounded(LogOf(b.logs, r) + [e], c.replay);
            0 < |log| <= c.replay && IsSuffix(Stamps(log), HistoryOf(b.history, r) + [e.stamp])
  {
    var log, h := LogOf(b.logs, r), HistoryOf(b.history, r);
    if r in b.logs {
      assert LogSound(b, c, r);
    } else {
      assert h[|h|..] == Stamps([]);
    }
    SuffixGrows(log, h, e, c.replay);
  }

  /** What an emit of `e` leaves behind. */
  ghost predicate Emitted(b: Bus, c: Limits, r: RunId, e: Event, t: Bus) {
    && r in t.logs && t.logs[r] == Bounded(LogOf(b.logs, r) + [e], c.replay)
    && (forall q :: q in t.logs && q != r ==> q in b.logs && t.logs[q] == b.logs[q])
    && Listed(t.order, t.logs)
    && t.history == b.history[r := HistoryOf(b.history, r) + [e.stamp]]
    && e.stamp.n == t.globalSeq == b.globalSeq + 1 && t.modes == b.modes
    && (forall q :: q in t.runSeq ==> t.runSeq[q] <= t.globalSeq)
    && (forall q :: q in t.subscribers ==> |t.subscribers[q]| <= c.subscribers)
  }

  lemma NotifyingShrinks(subscribers: map<RunId, seq<Conn>>, r: RunId, dead: set<Conn>)
    ensures forall q :: q in Notified(subscribers, r, dead) ==> q in subscribers && |Notified(subscribers, r, dead)[q]| <= |subscribers[q]|
  {
  }

  lemma EmitIsEmitted(b: Bus, c: Limits, r: RunId, kind: string, payload: Option<Json>, dead: set<Conn>)
    requires Sane(c) && Invariant(b, c)
    ensures Emitted(b, c, r, NewEvent(b, c, r, kind, payload), Emit(b, c, r, kind, payload, dead))
  {
    OpenedKeeps(b, c, r);
    NotifyingShrinks(b.subscribers, r, dead);
  }

  lemma BoundedIsShifted(before: seq<Event>, e: Event, max: nat)
    requires |before| <= max && max > 0
    ensures Bounded(before + [e], max) == (if |before| < max then before else before[1..]) + [e]
  {
    assert before != [] ==> (before + [e])[1..] == before[1..] + [e];
  }

  /** An emit puts its event at the end of the run's log, which loses at most its
      oldest one, and changes no other log. */
  lemma EmitIsLogged(b: Bus, c: Limits, r: RunId, kind: string, payload: Option<Json>, dead: set<Conn>)
    requires Sane(c) && Invariant(b, c)
    ensures var before, t := LogOf(b.logs, r), Emit(b, c, r, kind, payload, dead);
            && r in t.logs
            && t.logs[r] == (if |before| < c.replay then before else before[1..]) + [NewEvent(b, c, r, kind, payload)]
            && forall q :: q in t.logs && q != r ==> q in b.logs && t.logs[q] == b.logs[q]
  {
    EmitIsEmitted(b, c, r, kind, payload, dead);
    var before := LogOf(b.logs, r);
    assert |before| <= c.replay by {
      assert r in b.logs ==> LogSound(b, c, r);
    }
    BoundedIsShifted(before, NewEvent(b, c, r, kind, payload), c.replay);
  }

  lemma HistoryGrows(h: seq<Stamp>, s: Stamp)
    requires Increasing(h) && s.n > 0 && forall i :: 0 <= i < |h| ==> h[i].n < s.n
    ensures Increasing(h + [s])
  {
  }

  lemma EmittedKeepsHistory(b: Bus, c: Limits, r: RunId, e: Event, t: Bus, q: RunId)
    requires Sane(c) && Invariant(b, c) && Emitted(b, c, r, e, t)
    ensures HistorySound(t, q)
  {
    assert HistorySound(b, q);
    if q == r {
      HistoryGrows(HistoryOf(b.history, r), e.stamp);
    }
  }

  lemma EmittedKeepsOwnLog(b: Bus, c: Limits, r: RunId, e: Event, t: Bus)
    requires Sane(c) && Invariant(b, c) && Emitted(b, c, r, e, t)
    requires r in b.modes ==> AllClean(c, Bounded(LogOf(b.logs, r) + [e], c.replay), b.modes[r])
    ensures LogSound(t, c, r)
  {
    NewLogIsSuffix(b, c, r, e);
  }

  lemma EmittedKeepsOtherLog(b: Bus, c: Limits, r: RunId, e: Event, t: Bus, q: RunId)
    requires Invariant(b, c) && Emitted(b, c, r, e, t) && q in t.logs && q != r
    ensures LogSound(t, c, q)
  {
    assert LogSound(b, c, q);
    assert HistoryOf(t.history, q) == HistoryOf(b.history, q);
  }

  /** The sequence check of an emit never fails. */
  lemma SequenceNeverGoesBackwards(b: Bus, c: Limits, r: RunId)
    requires Sane(c) && Invariant(b, c)
    ensures var k := Opened(b, r, c.runs); r in k.runSeq ==> b.globalSeq + 1 > k.runSeq[r]
  {
    OpenedKeeps(b, c, r);
  }

  lemma EmitKeepsInvariant(b: Bus, c: Limits, r: RunId, kind: string, payload: Option<Json>, dead: set<Conn>)
    requires Sane(c) && Invariant(b, c)
    ensures Invariant(Emit(b, c, r, kind, payload, dead), c)
  {
    var t, e := Emit(b, c, r, kind, payload, dead), NewEvent(b, c, r, kind, payload);
    EmitIsEmitted(b, c, r, kind, payload, dead);
    if r in b.modes {
      NewEventIsClean(b, c, r, kind, payload);
    }
    EmittedKeepsInvariant(b, c, r, e, t);
  }

  lemma EmittedKeepsInvariant(b: Bus, c: Limits, r: RunId, e: Event, t: Bus)
    requires Sane(c) && Invariant(b, c) && Emitted(b, c, r, e, t)
    requires r in b.modes ==> AllClean(c, Bounded(LogOf(b.logs, r) + [e], c.replay), b.modes[r])
    ensures Invariant(t, c)
  {
    forall q
      ensures HistorySound(t, q)
    {
      EmittedKeepsHistory(b, c, r, e, t, q);
    }
    forall q | q in t.logs
      ensures LogSound(t, c, q)
    {
      if q == r {
        EmittedKeepsOwnLog(b, c, r, e, t);
      } else {
        EmittedKeepsOtherLog(b, c, r, e, t, q);
      }
    }
  }

  lemma SetPrivacyModeKeepsInvariant(b: Bus, c: Limits, r: RunId, mode: Mode)
    requires Sane(c) && Invariant(b, c)
    ensures Invariant(SetPrivacyMode(b, c, r, mode), c)
  {
    var t := SetPrivacyMode(b, c, r, mode);
    forall q
      ensures HistorySound(t, q)
    {
      assert HistorySound(b, q);
    }
    forall q | q in t.logs
      ensures LogSound(t, c, q)
    {
      assert LogSound(b, c, q);
      assert Stamps(t.logs[q]) == Stamps(b.logs[q]);
      if q == r && r.text != "" {
        forall i | 0 <= i < |t.logs[q]|
          ensures c.clean(t.logs[q][i].payload, mode) == t.logs[q][i].payload
        {
        }
      }
    }
  }

  /** The remaining operations touch no history and only ever drop whole logs. */
  lemma ShrinkingKeepsInvariant(b: Bus, c: Limits, t: Bus)
    requires Invariant(b, c)
    requires t.history == b.history && t.globalSeq == b.globalSeq && Listed(t.order, t.logs)
    requires forall r :: r in t.logs ==> r in b.logs && t.logs[r] == b.logs[r] && (r in t.modes ==> r in b.modes && t.modes[r] == b.modes[r])
    requires forall r :: r in t.runSeq ==> r in b.runSeq && t.runSeq[r] == b.runSeq[r]
    requires forall r :: r in t.subscribers ==> |t.subscribers[r]| <= c.subscribers
    ensures Invariant(t, c)
  {
    forall q
      ensures HistorySound(t, q)
    {
      assert HistorySound(b, q);
    }
    forall q | q in t.logs
      ensures LogSound(t, c, q)
    {
      assert LogSound(b, c, q);
    }
  }

  lemma SubscribeKeepsInvariant(b: Bus, c: Limits, r: RunId, conn: Conn)
    requires Sane(c) && Invariant(b, c)
    ensures Invariant(Subscribe(b, c, r, conn), c)
  {
    ShrinkingKeepsInvariant(b, c, Subscribe(b, c, r, conn));
  }

  lemma UnsubscribeKeepsInvariant(b: Bus, c: Limits, r: RunId, conn: Conn)
    requires Invariant(b, c)
    ensures Invariant(Unsubscribe(b, r, conn), c)
  {
    ShrinkingKeepsInvariant(b, c, Unsubscribe(b, r, conn));
  }

  /** Removal leaves the rest in its order. */
  lemma {:induction false} WithoutSplits(a: seq<RunId>, b: seq<RunId>, r: RunId)
    ensures Without(a + b, r) == Without(a, r) + Without(b, r)
  {
    if a == [] {
      assert a + b == b;
    } else {
      assert (a + b)[0] == a[0] && (a + b)[1..] == a[1..] + b;
      WithoutSplits(a[1..], b, r);
      var first := if a[0] == r then [] else [a[0]];
      assert first + (Without(a[1..], r) + Without(b, r)) == first + Without(a[1..], r) + Without(b, r);
    }
  }

  lemma {:induction false} RemoveAllSplits(a: seq<Conn>, b: seq<Conn>, dead: set<Conn>)
    ensures RemoveAll(a + b, dead) == RemoveAll(a, dead) + RemoveAll(b, dead)
  {
    if a == [] {
      assert a + b == b;
    } else {
      assert (a + b)[0] == a[0] && (a + b)[1..] == a[1..] + b;
      RemoveAllSplits(a[1..], b, dead);
      var first := if a[0] in dead then [] else [a[0]];
      assert first + (RemoveAll(a[1..], dead) + RemoveAll(b, dead)) == first + RemoveAll(a[1..], dead) + RemoveAll(b, dead);
    }
  }

  lemma RemoveAllOfOne(y: Conn, dead: set<Conn>)
    ensures RemoveAll([y], dead) == if y in dead then [] else [y]
  {
    assert [y][1..] == [];
  }

  lemma WithoutKeepsDistinct(order: seq<RunId>, r: RunId)
    requires Distinct(order)
    ensures Distinct(Without(order, r))
  {
    if order != [] {
      WithoutKeepsDistinct(order[1..], r);
      assert order[0] !in order[1..];
    }
  }

  lemma ClearRunKeepsInvariant(b: Bus, c: Limits, r: RunId)
    requires Invariant(b, c)
    ensures Invariant(ClearRun(b, r), c)
  {
    WithoutKeepsDistinct(b.order, r);
    ShrinkingKeepsInvariant(b, c, ClearRun(b, r));
  }

  // ---------- replay ----------

  /** The part of a history after a cursor. */
  function Later(h: seq<Stamp>, n: int): seq<Stamp> {
    if h == [] then [] else if h[0].n > n then [h[0]] + Later(h[1..], n) else Later(h[1..], n)
  }

  lemma {:induction false} SinceIsLater(log: seq<Event>, n: int)
    ensures Stamps(Since(log, n)) == Later(Stamps(log), n)
  {
    if log != [] {
      SinceIsLater(log[1..], n);
      assert Stamps(log)[1..] == Stamps(log[1..]);
    }
  }

  lemma {:induction false} LaterSplits(p: seq<Stamp>, s: seq<Stamp>, n: int)
    ensures Later(p + s, n) == Later(p, n) + Later(s, n)
  {
    if p == [] {
      assert p + s == s;
    } else {
      assert (p + s)[0] == p[0] && (p + s)[1..] == p[1..] + s;
      LaterSplits(p[1..], s, n);
      var first := if p[0].n > n then [p[0]] else [];
      assert Later(p, n) == first + Later(p[1..], n) && Later(p + s, n) == first + Later(p[1..] + s, n);
      assert first + (Later(p[1..], n) + Later(s, n)) == first + Later(p[1..], n) + Later(s, n);
    }
  }

  lemma {:induction false} LaterIsEmpty(p: seq<Stamp>, n: int)
    ensures Later(p, n) == [] <==> forall i :: 0 <= i < |p| ==> p[i].n <= n
  {
    if p != [] {
      LaterIsEmpty(p[1..], n);
      assert forall i :: 0 < i < |p| ==> p[i] == p[1..][i - 1];
    }
  }

  lemma PrefixedEqualsIffEmpty(p: seq<Stamp>, s: seq<Stamp>)
    ensures p + s == s <==> p == []
  {
    assert |p + s| == |p| + |s|;
  }

  /** A replay returns the whole later history exactly when no event after the
      cursor was ever evicted. */
  lemma ReplayCompleteIffNothingEvicted(b: Bus, c: Limits, r: RunId, n: int)
    requires Invariant(b, c)
    ensures var h, evicted := HistoryOf(b.history, r), |HistoryOf(b.history, r)| - |LogOf(b.logs, r)|;
            Stamps(EventsSinceWithGap(b, r, n).events) == Later(h, n) <==> forall i :: 0 <= i < evicted ==> h[i].n <= n
  {
    var log, h := LogOf(b.logs, r), HistoryOf(b.history, r);
    assert r in b.logs ==> LogSound(b, c, r);
    assert Stamps([]) == [];
    var evicted := h[..|h| - |log|];
    assert h == evicted + Stamps(log);
    SinceIsLater(log, n);
    LaterSplits(evicted, Stamps(log), n);
    LaterIsEmpty(evicted, n);
    PrefixedEqualsIffEmpty(Later(evicted, n), Later(Stamps(log), n));
  }

  /** No silent loss: for a cursor past the start and a run whose log is held,
      a replay without a gap is the whole later history, whatever was shifted
      out of the buffer, pruned or interleaved with other runs. */
  lemma NoGapNoLoss(b: Bus, c: Limits, r: RunId, n: int)
    requires Invariant(b, c) && r in b.logs && n > 0 && !EventsSinceWithGap(b, r, n).gap
    ensures Stamps(EventsSinceWithGap(b, r, n).events) == Later(HistoryOf(b.history, r), n)
  {
    var log, h := b.logs[r], HistoryOf(b.history, r);
    assert LogSound(b, c, r) && HistorySound(b, r);
    var k := |h| - |log|;
    assert h[k] == h[k..][0] == log[0].stamp;
    ReplayCompleteIffNothingEvicted(b, c, r, n);
  }

  ghost predicate Retains(log: seq<Event>, n: nat) {
    exists i :: 0 <= i < |log| && log[i].stamp.n == n
  }

  /** A gap is reported exactly when the cursor is past zero and every event that is
      held comes later than the one right after it. */
  lemma GapIff(b: Bus, c: Limits, r: RunId, n: int)
    requires Invariant(b, c)
    ensures var log, replay := LogOf(b.logs, r), EventsSinceWithGap(b, r, n);
            && (replay.gap <==> n > 0 && r in b.logs && forall i :: 0 <= i < |log| ==> log[i].stamp.n > n + 1)
            && (r in b.logs ==> Retains(log, replay.oldest) && Retains(log, replay.latest))
            && (forall i :: 0 <= i < |log| ==> replay.oldest <= log[i].stamp.n <= replay.latest)
  {
    var log := LogOf(b.logs, r);
    if r in b.logs {
      assert LogSound(b, c, r) && HistorySound(b, r);
      LogIncreases(log, HistoryOf(b.history, r));
      assert log[0].stamp.n > n + 1 ==> forall i :: 0 <= i < |log| ==> log[i].stamp.n > n + 1;
    }
  }

  lemma LogIncreases(log: seq<Event>, h: seq<Stamp>)
    requires IsSuffix(Stamps(log), h) && Increasing(h)
    ensures forall i, j :: 0 <= i < j < |log| ==> log[i].stamp.n < log[j].stamp.n
  {
    assert forall i :: 0 <= i < |log| ==> log[i].stamp == h[|h| - |log| + i];
  }

  /** The two cases the gap flag does not cover: a cursor of zero, and a run
      whose whole log is gone. */
  lemma SilentLoss(b: Bus, c: Limits, r: RunId, n: int)
    requires Invariant(b, c)
    ensures var h, log, replay := HistoryOf(b.history, r), LogOf(b.logs, r), EventsSinceWithGap(b, r, n);
            && (n <= 0 && |h| > |log| ==> !replay.gap && Stamps(replay.events) != Later(h, n))
            && (r !in b.logs && h != [] && n < h[|h| - 1].n ==> !replay.gap && Stamps(replay.events) != Later(h, n))
  {
    ReplayCompleteIffNothingEvicted(b, c, r, n);
    assert HistorySound(b, r);
  }

  /** Exactly when a replay is complete or says that it is not: the log is held
      and the cursor is past zero, or nothing after the cursor was evicted. */
  lemma LossIsReportedIff(b: Bus, c: Limits, r: RunId, n: int)
    requires Invariant(b, c)
    ensures var h, replay := HistoryOf(b.history, r), EventsSinceWithGap(b, r, n);
            replay.gap || Stamps(replay.events) == Later(h, n) <==>
              (r in b.logs && n > 0) || forall i :: 0 <= i < |h| - |LogOf(b.logs, r)| ==> h[i].n <= n
  {
    ReplayCompleteIffNothingEvicted(b, c, r, n);
    if r in b.logs && n > 0 && !EventsSinceWithGap(b, r, n).gap {
      NoGapNoLoss(b, c, r, n);
    }
  }

  /** The event that an unserializable payload leaves on a run without a mode. */
  function Plain(n: nat, kind: string): Event {
    Event(Stamp(n, kind), SafePayload(None))
  }

  /** A bus on which one run has emitted twice, retaining `log`. */
  function EmittedTwice(r: RunId, kind: string, log: seq<Event>): Bus {
    Bus(2, map[r := log], [r], map[r := 2], map[], map[], map[r := [Stamp(1, kind), Stamp(2, kind)]])
  }

  lemma FirstEmit(c: Limits, r: RunId, kind: string)
    requires Sane(c)
    ensures Emit(EMPTY, c, r, kind, None, {}) ==
              Bus(1, map[r := [Plain(1, kind)]], [r], map[r := 1], map[], map[], map[r := [Stamp(1, kind)]])
  {
    var k := Kept([r], map[r := []], map[]);
    assert [] + [r] == [r];
    assert Opened(EMPTY, r, c.runs) == k;
    assert [] + [Plain(1, kind)] == [Plain(1, kind)];
    assert map[][r := [Stamp(1, kind)]] == map[r := [Stamp(1, kind)]];
    assert [] + [Stamp(1, kind)] == [Stamp(1, kind)];
  }

  lemma SecondEmit(c: Limits, r: RunId, kind: string)
    requires Sane(c)
    ensures Emit(Emit(EMPTY, c, r, kind, None, {}), c, r, kind, None, {})
            == EmittedTwice(r, kind, if c.replay == 1 then [Plain(2, kind)] else [Plain(1, kind), Plain(2, kind)])
  {
    FirstEmit(c, r, kind);
    assert [Plain(1, kind)] + [Plain(2, kind)] == [Plain(1, kind), Plain(2, kind)];
    assert [Plain(1, kind), Plain(2, kind)][1..] == [Plain(2, kind)];
    assert [Stamp(1, kind)] + [Stamp(2, kind)] == [Stamp(1, kind), Stamp(2, kind)];
  }

  lemma LaterOfTwo(kind: string)
    ensures Later([Stamp(1, kind), Stamp(2, kind)], 0) == [Stamp(1, kind), Stamp(2, kind)]
    ensures Later([Stamp(1, kind), Stamp(2, kind)], 1) == [Stamp(2, kind)]
  {
    var both, last := [Stamp(1, kind), Stamp(2, kind)], [Stamp(2, kind)];
    assert both[1..] == last && last[1..] == [];
    assert Later(last, 0) == last && Later(last, 1) == last;
    assert Later(both, 0) == [Stamp(1, kind)] + last;
  }

  /** Two emits into a buffer of one: a replay from zero lacks the first event
      and reports no gap. */
  lemma ShiftedOutSilently(c: Limits, r: RunId, kind: string)
    requires Sane(c) && c.replay == 1
    ensures var b := Emit(Emit(EMPTY, c, r, kind, None, {}), c, r, kind, None, {});
            && HistoryOf(b.history, r) == [Stamp(1, kind), Stamp(2, kind)]
            && !EventsSinceWithGap(b, r, 0).gap && EventsSinceWithGap(b, r, 0).events == [Plain(2, kind)]
            && Later(HistoryOf(b.history, r), 0) == [Stamp(1, kind), Stamp(2, kind)]
  {
    SecondEmit(c, r, kind);
    LaterOfTwo(kind);
    var log := [Plain(2, kind)];
    assert log[1..] == [] && Since(log, 0) == [log[0]] + Since(log[1..], 0);
  }

  /** A run whose log is pruned when another run emits: a replay from its first
      event lacks the second and reports no gap. */
  lemma PrunedSilently(c: Limits, r: RunId, q: RunId, kind: string)
    requires Sane(c) && c.runs == 1 && r != q && r.text != ""
    ensures var b := Emit(Emit(Emit(EMPTY, c, r, kind, None, {}), c, r, kind, None, {}), c, q, kind, None, {});
            && r !in b.logs && Later(HistoryOf(b.history, r), 1) == [Stamp(2, kind)]
            && EventsSinceWithGap(b, r, 1) == Replay([], false, 0, 0)
  {
    SecondEmit(c, r, kind);
    LaterOfTwo(kind);
    var a := Emit(Emit(EMPTY, c, r, kind, None, {}), c, r, kind, None, {});
    assert [r] + [q] == [r, q] && [r, q][1..] == [q];
    var k := Kept([r, q], a.logs[q := []], a.runSeq);
    assert Opened(a, q, 1) == Prune(k, map[], 1);
    assert Prune(k, map[], 1) == Kept([q], k.logs - {r}, k.runSeq - {r});
  }

  // ---------- the object ----------

  class EventBus {
    const limits: Limits
    var globalSeq: nat
    var eventLogs: map<RunId, seq<Event>>
    var order: seq<RunId>
    var runSeq: map<RunId, nat>
    var subscribers: map<RunId, seq<Conn>>
    var privacyModes: map<RunId, Mode>
    ghost var history: map<RunId, seq<Stamp>>

    ghost function State(): Bus
      reads this
    {
      Bus(globalSeq, eventLogs, order, runSeq, subscribers, privacyModes, history)
    }

    ghost predicate Valid()
      reads this
    {
      Sane(limits) && Invariant(State(), limits)
    }

    constructor (limits: Limits)
      requires Sane(limits)
      ensures Valid() && State() == EMPTY && this.limits == limits
    {
      this.limits := limits;
      globalSeq, eventLogs, order, runSeq, subscribers, privacyModes := 0, map[], [], map[], map[], map[];
      history := map[];
    }

    method PruneRunsIfNeeded()
      modifies this`eventLogs, this`order, this`runSeq
      ensures Kept(order, eventLogs, runSeq) == Prune(old(Kept(order, eventLogs, runSeq)), subscribers, limits.runs)
    {
      ghost var k := Kept(order, eventLogs, runSeq);
      while |order| > limits.runs
        invariant Prune(Kept(order, eventLogs, runSeq), subscribers, limits.runs) == Prune(k, subscribers, limits.runs)
        decreases |order|
      {
        var oldest := order[0];
        if oldest.text == "" {
          break;
        }
        if oldest in subscribers && |subscribers[oldest]| > 0 {
          order := order[1..] + [oldest];
          return;
        }
        order := order[1..];
        eventLogs := eventLogs - {oldest};
        runSeq := runSeq - {oldest};
      }
    }

    method OpenLog(runId: RunId)
      modifies this`eventLogs, this`order, this`runSeq
      ensures Kept(order, eventLogs, runSeq) == WithLog(old(Kept(order, eventLogs, runSeq)), subscribers, runId, limits.runs)
    {
      if runId !in eventLogs {
        eventLogs := eventLogs[runId := []];
        order := order + [runId];
        PruneRunsIfNeeded();
      }
    }

    /** Writes to every subscriber and drops those whose write fails. */
    method Notify(runId: RunId, dead: set<Conn>)
      modifies this`subscribers
      ensures subscribers == Notified(old(subscribers), runId, dead)
      ensures forall q, y :: y in SubscribersOf(subscribers, q) <==> y in SubscribersOf(old(subscribers), q) && (q == runId ==> y !in dead)
    {
      if runId in subscribers && |subscribers[runId]| > 0 {
        var live := RemoveAll(subscribers[runId], dead);
        subscribers := if live == [] then subscribers - {runId} else subscribers[runId := live];
      }
    }

    method AppendEvent(runId: RunId, e: Event, dead: set<Conn>)
      modifies this
      ensures State() == Append(old(State()), limits, runId, e, dead)
    {
      globalSeq := e.stamp.n;
      OpenLog(runId);
      eventLogs := eventLogs[runId := Bounded(LogOf(eventLogs, runId) + [e], limits.replay)];
      runSeq := runSeq[runId := globalSeq];
      history := history[runId := HistoryOf(history, runId) + [e.stamp]];
      Notify(runId, dead);
    }

    /** `dead` are the connections whose write fails. */
    method EmitEvent(runId: RunId, kind: string, payload: Option<Json>, dead: set<Conn>) returns (e: Event)
      requires Valid()
      modifies this
      ensures Valid() && State() == Emit(old(State()), limits, runId, kind, payload, dead)
      ensures e.stamp == Stamp(old(globalSeq) + 1, kind)
      ensures var shown := if payload.None? then Obj([Field(Ascii("_unserializable"), Bool(true))])
                           else if payload.value.Undef? then Null
                           else payload.value;
              e.payload == if runId in old(privacyModes) then limits.clean(shown, old(privacyModes)[runId]) else shown
      ensures var before := if runId in old(eventLogs) then old(eventLogs)[runId] else [];
              runId in eventLogs && eventLogs[runId] == (if |before| < limits.replay then before else before[1..]) + [e]
      ensures forall q :: q in eventLogs && q != runId ==> q in old(eventLogs) && eventLogs[q] == old(eventLogs)[q]
      ensures globalSeq == e.stamp.n && runId in runSeq && runSeq[runId] == e.stamp.n
    {
      ghost var b := State();
      e := Event(Stamp(globalSeq + 1, kind), Recorded(limits, privacyModes, runId, payload));
      AppendEvent(runId, e, dead);
      assert State() == Emit(b, limits, runId, kind, payload, dead);
      EmitIsLogged(b, limits, runId, kind, payload, dead);
      EmitKeepsInvariant(b, limits, runId, kind, payload, dead);
    }

    method CleanLog(log: seq<Event>, mode: Mode) returns (clean: seq<Event>)
      ensures clean == Cleaned(limits, log, mode)
    {
      clean := log;
      for i := 0 to |log|
        invariant |clean| == |log|
        invariant forall k :: 0 <= k < i ==> clean[k] == Cleaned(limits, log, mode)[k]
        invariant forall k :: i <= k < |log| ==> clean[k] == log[k]
      {
        clean := clean[i := clean[i].(payload := limits.clean(clean[i].payload, mode))];
      }
    }

    method RewriteLog(runId: RunId, mode: Mode)
      modifies this
      ensures State() == SetPrivacyMode(old(State()), limits, runId, mode)
    {
      if runId.text == "" {
        return;
      }
      privacyModes := privacyModes[runId := mode];
      if runId in eventLogs {
        var log := CleanLog(eventLogs[runId], mode);
        eventLogs := eventLogs[runId := log];
      }
    }

    method SetMode(runId: RunId, mode: Mode)
      requires Valid()
      modifies this
      ensures Valid() && State() == SetPrivacyMode(old(State()), limits, runId, mode)
      ensures runId.text != "" ==> runId in privacyModes && privacyModes[runId] == mode
      ensures runId.text != "" && runId in old(eventLogs) ==>
        && runId in eventLogs && |eventLogs[runId]| == |old(eventLogs)[runId]|
        && forall i :: 0 <= i < |eventLogs[runId]| ==>
             && eventLogs[runId][i].stamp == old(eventLogs)[runId][i].stamp
             && eventLogs[runId][i].payload == limits.clean(old(eventLogs)[runId][i].payload, mode)
      ensures forall q :: q in old(eventLogs) && q != runId ==> q in eventLogs && eventLogs[q] == old(eventLogs)[q]
    {
      ghost var b := State();
      RewriteLog(runId, mode);
      SetPrivacyModeKeepsInvariant(b, limits, runId, mode);
    }

    method SubscribeTo(runId: RunId, conn: Conn) returns (buffer: seq<Event>)
      requires Valid()
      modifies this`subscribers
      ensures Valid() && State() == Subscribe(old(State()), limits, runId, conn)
      ensures var before := SubscribersOf(old(subscribers), runId);
              && runId in subscribers && conn in subscribers[runId]
              && (forall y :: y in subscribers[runId] ==> y == conn || y in before)
              && (forall i :: 0 <= i < |before| && before[i] !in subscribers[runId] ==> i == 0 && |before| >= limits.subscribers)
      ensures forall q :: q != runId ==> (q in subscribers <==> q in old(subscribers)) && (q in subscribers ==> subscribers[q] == old(subscribers)[q])
      ensures buffer == Since(LogOf(eventLogs, runId), 0)
    {
      ghost var b := State();
      var live := SubscribersOf(subscribers, runId);
      if |live| >= limits.subscribers && live != [] {
        live := live[1..];
      }
      if conn !in live {
        live := live + [conn];
      }
      subscribers := subscribers[runId := live];
      buffer := ReplayBuffer(runId, 0);
      assert State() == Subscribe(b, limits, runId, conn);
      SubscribeKeepsInvariant(b, limits, runId, conn);
    }

    method UnsubscribeFrom(runId: RunId, conn: Conn)
      requires Valid()
      modifies this`subscribers
      ensures Valid() && State() == Unsubscribe(old(State()), runId, conn)
      ensures forall q, y :: y in SubscribersOf(subscribers, q) <==> y in SubscribersOf(old(subscribers), q) && (q == runId ==> y != conn)
    {
      ghost var b := State();
      if runId in subscribers {
        var live := RemoveAll(subscribers[runId], {conn});
        subscribers := if live == [] then subscribers - {runId} else subscribers[runId := live];
      }
      assert State() == Unsubscribe(b, runId, conn);
      UnsubscribeKeepsInvariant(b, limits, runId, conn);
    }

    method ReplayBuffer(runId: RunId, since: int) returns (events: seq<Event>)
      ensures events == Since(LogOf(eventLogs, runId), since)
    {
      var log := LogOf(eventLogs, runId);
      events := [];
      var i := |log|;
      while i > 0
        invariant 0 <= i <= |log|
        invariant events == Since(log[i..], since)
      {
        i := i - 1;
        assert log[i..][1..] == log[i + 1..];
        if log[i].stamp.n > since {
          events := [log[i]] + events;
        }
      }
    }

    method GetEventsSinceWithGap(runId: RunId, since: int) returns (replay: Replay)
      requires Valid()
      ensures replay == EventsSinceWithGap(State(), runId, since)
      ensures runId in eventLogs && since > 0 && !replay.gap ==> Stamps(replay.events) == Later(HistoryOf(history, runId), since)
    {
      var log := LogOf(eventLogs, runId);
      if |log| == 0 {
        return Replay([], false, 0, 0);
      }
      var events := ReplayBuffer(runId, since);
      replay := Replay(events, since > 0 && since < log[0].stamp.n - 1, log[0].stamp.n, log[|log| - 1].stamp.n);
      if since > 0 && !replay.gap {
        NoGapNoLoss(State(), limits, runId, since);
      }
    }

    method Clear(runId: RunId)
      requires Valid()
      modifies this
      ensures Valid() && State() == ClearRun(old(State()), runId)
      ensures eventLogs == old(eventLogs) - {runId} && privacyModes == old(privacyModes) - {runId}
      ensures runId !in order && runId !in runSeq && runId !in subscribers
      ensures forall q :: q != runId ==> SubscribersOf(subscribers, q) == SubscribersOf(old(subscribers), q)
    {
      ghost var b := State();
      Forget(runId);
      ClearRunKeepsInvariant(b, limits, runId);
    }

    method Forget(runId: RunId)
      modifies this
      ensures State() == ClearRun(old(State()), runId)
    {
      eventLogs := eventLogs - {runId};
      order := Without(order, runId);
      runSeq := runSeq - {runId};
      privacyModes := privacyModes - {runId};
      subscribers := subscribers - {runId};
    }
  }
}
