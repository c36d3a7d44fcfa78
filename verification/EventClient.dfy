// A client that follows one run over the bus: it reconnects with its cursor,
// drops what it has already applied, and resyncs on a gap.
module EventClient {
  import opened Wrappers
  import opened Json
  import opened Privacy
  import opened EventBus
  import Events = EventBus

  /** The client applied `applied` since its baseline `base` and is at `last`.
      In flight on its connection number `conns - 1` are `queue` and, before
      them, perhaps a gap frame; the number of a broken connection is given up. */
  datatype Client = Client(base: nat, last: nat, applied: seq<Stamp>, gap: bool, queue: seq<Stamp>, conns: nat)

  datatype System = System(bus: Bus, client: Client)

  const START := System(Events.EMPTY, Client(0, 0, [], false, [], 0))

  /** The client that is followed here; any other name is somebody else. */
  const SELF := Name("self")

  function Mine(n: nat): Conn {
    Conn(SELF, n)
  }

  predicate Listening(s: System, run: RunId) {
    s.client.conns > 0 && Mine(s.client.conns - 1) in SubscribersOf(s.bus.subscribers, run)
  }

  datatype Act =
    | Emitting(r: RunId, kind: string, payload: Option<Json>, dead: set<Conn>)
    | SettingMode(r: RunId, mode: Mode)
    | Joining(r: RunId, conn: Conn)  // somebody else subscribes
    | Leaving(r: RunId, conn: Conn)  // the bus learns that a connection closed
    | Clearing(r: RunId)
    | Connecting                     // the client connects with its cursor
    | Delivering                     // the next frame in flight arrives
    | Losing                         // the connection breaks

  /** A stream is served only for a run whose log is held. */
  function Connect(s: System, c: Limits, run: RunId): System {
    if run !in s.bus.logs then s
    else
      var replay := EventsSinceWithGap(s.bus, run, s.client.last);
      System(Subscribe(s.bus, c, run, Mine(s.client.conns)),
             s.client.(gap := replay.gap, queue := Stamps(replay.events), conns := s.client.conns + 1))
  }

  /** A snapshot replaces everything applied so far. */
  function Resync(bus: Bus, cl: Client, run: RunId): Client {
    var log := LogOf(bus.logs, run);
    var latest := if log == [] then 0 else log[|log| - 1].stamp.n;
    cl.(base := latest, last := latest, applied := [])
  }

  function Apply(cl: Client, s: Stamp): Client {
    if s.n <= cl.last then cl else cl.(last := s.n, applied := cl.applied + [s])
  }

  function Deliver(s: System, run: RunId): System {
    var cl := s.client;
    s.(client := if cl.gap then Resync(s.bus, cl.(gap := false), run)
                 else if cl.queue == [] then cl
                 else Apply(cl.(queue := cl.queue[1..]), cl.queue[0]))
  }

  function Perform(s: System, c: Limits, run: RunId, a: Act): System {
    match a
    case Emitting(r, kind, payload, dead) =>
      var heard := r == run && Listening(s, run) && Mine(s.client.conns - 1) !in dead;
      System(Emit(s.bus, c, r, kind, payload, dead),
             if heard then s.client.(queue := s.client.queue + [NewEvent(s.bus, c, r, kind, payload).stamp]) else s.client)
    case SettingMode(r, mode) => s.(bus := SetPrivacyMode(s.bus, c, r, mode))
    case Joining(r, conn) => if conn.client == SELF then s else s.(bus := Subscribe(s.bus, c, r, conn))
    case Leaving(r, conn) => s.(bus := Unsubscribe(s.bus, r, conn))
    case Clearing(r) => s.(bus := ClearRun(s.bus, r))
    case Connecting => Connect(s, c, run)
    case Delivering => Deliver(s, run)
    case Losing => s.(client := s.client.(gap := false, queue := [], conns := s.client.conns + 1))
  }

  function Execute(c: Limits, run: RunId, acts: seq<Act>): System {
    if acts == [] then START else Perform(Execute(c, run, acts[..|acts| - 1]), c, run, acts[|acts| - 1])
  }

  // ---------- counting a history ----------

  /** How many events of a history are not after a cursor. */
  function Count(h: seq<Stamp>, n: int): (k: nat)
    ensures k <= |h|
  {
    if h == [] then 0 else if h[|h| - 1].n <= n then |h| else Count(h[..|h| - 1], n)
  }

  lemma CountSplits(h: seq<Stamp>, n: int, i: nat)
    requires Increasing(h) && i < |h|
    ensures i < Count(h, n) <==> h[i].n <= n
  {
    if h[|h| - 1].n > n && i < |h| - 1 {
      CountSplits(h[..|h| - 1], n, i);
    }
  }

  lemma CountIs(h: seq<Stamp>, n: int, k: nat)
    requires Increasing(h) && k <= |h| && (k > 0 ==> h[k - 1].n <= n) && (k < |h| ==> h[k].n > n)
    ensures Count(h, n) == k
  {
    if k > 0 {
      CountSplits(h, n, k - 1);
    }
    if k < |h| {
      CountSplits(h, n, k);
    }
  }

  lemma CountStays(h: seq<Stamp>, s: Stamp, n: int)
    requires Increasing(h + [s]) && n < s.n
    ensures Count(h + [s], n) == Count(h, n)
  {
    assert (h + [s])[..|h|] == h;
  }

  lemma LaterSplitsAt(h: seq<Stamp>, n: int, k: nat)
    requires k <= |h|
    requires forall i :: 0 <= i < k ==> h[i].n <= n
    requires forall i :: k <= i < |h| ==> h[i].n > n
    ensures Later(h, n) == h[k..]
  {
    if h != [] {
      LaterSplitsAt(h[1..], n, if k > 0 then k - 1 else 0);
      assert k > 0 ==> h[1..][k - 1..] == h[k..];
      assert k == 0 ==> h == [h[0]] + h[1..];
    }
  }

  lemma LaterIsDrop(h: seq<Stamp>, n: int)
    requires Increasing(h)
    ensures Later(h, n) == h[Count(h, n)..]
  {
    forall i | 0 <= i < |h|
      ensures i < Count(h, n) <==> h[i].n <= n
    {
      CountSplits(h, n, i);
    }
    LaterSplitsAt(h, n, Count(h, n));
  }

  // ---------- the invariant ----------

  /** What is applied is exactly the stretch of the history between the
      baseline and the cursor; from no baseline, it starts with the first
      frame the client ever applied. */
  ghost predicate AppliedExactly(cl: Client, h: seq<Stamp>) {
    AppliedUpTo(cl, h, Count(h, cl.last), Count(h, cl.base))
  }

  /** `to` and `start` are the places of the cursor and of the baseline. */
  ghost predicate AppliedUpTo(cl: Client, h: seq<Stamp>, to: nat, start: nat) {
    && |cl.applied| <= to <= |h|
    && (forall i :: 0 <= i < |cl.applied| ==> cl.applied[i] == h[to - |cl.applied| + i])
    && (cl.base > 0 ==> start == to - |cl.applied|)
    && (cl.last == 0 ==> cl.applied == [])
    && (cl.base == 0 && cl.last > 0 ==> cl.applied != [])
  }

  /** The frames in flight are a stretch of the history that starts at index
      `at`, and unless a resync comes first, nothing is missing before it. */
  ghost predicate InFlight(cl: Client, h: seq<Stamp>, at: nat) {
    && at + |cl.queue| <= |h|
    && (forall i :: 0 <= i < |cl.queue| ==> cl.queue[i] == h[at + i])
    && (cl.last > 0 && !cl.gap ==> at <= Count(h, cl.last))
  }

  /** Some stretch is in flight, up to the end while the bus still writes to us. */
  ghost predicate QueueSound(cl: Client, h: seq<Stamp>, listening: bool) {
    exists at: nat :: InFlight(cl, h, at) && (listening ==> at + |cl.queue| == |h|)
  }

  ghost predicate ClientSound(cl: Client, h: seq<Stamp>, globalSeq: nat, listening: bool) {
    cl.base <= cl.last <= globalSeq && AppliedExactly(cl, h) && QueueSound(cl, h, listening)
  }

  /** The client's connections that the bus knows have been opened. */
  ghost predicate OwnConnections(subscribers: map<RunId, seq<Conn>>, run: RunId, conns: nat) {
    forall n: nat :: Mine(n) in SubscribersOf(subscribers, run) ==> n < conns
  }

  ghost predicate Invariant(s: System, c: Limits, run: RunId) {
    && Events.Invariant(s.bus, c)
    && OwnConnections(s.bus.subscribers, run, s.client.conns)
    && ClientSound(s.client, HistoryOf(s.bus.history, run), s.bus.globalSeq, Listening(s, run))
  }

  // ---------- every action keeps it ----------

  lemma EmitKeepsApplied(cl: Client, h: seq<Stamp>, s: Stamp, queue: seq<Stamp>)
    requires AppliedExactly(cl, h) && cl.base <= cl.last < s.n && Increasing(h + [s])
    ensures AppliedExactly(cl.(queue := queue), h + [s])
  {
    CountStays(h, s, cl.last);
    CountStays(h, s, cl.base);
  }

  lemma EmitKeepsInFlight(cl: Client, h: seq<Stamp>, s: Stamp, at: nat, heard: bool)
    requires InFlight(cl, h, at) && cl.last < s.n && Increasing(h + [s])
    requires heard ==> at + |cl.queue| == |h|
    ensures InFlight(if heard then cl.(queue := cl.queue + [s]) else cl, h + [s], at)
  {
    CountStays(h, s, cl.last);
  }

  lemma EmitKeepsQueue(cl: Client, h: seq<Stamp>, s: Stamp, before: bool, heard: bool, after: bool)
    requires QueueSound(cl, h, before) && cl.last < s.n && Increasing(h + [s])
    requires (heard ==> before) && (after ==> heard)
    ensures QueueSound(if heard then cl.(queue := cl.queue + [s]) else cl, h + [s], after)
  {
    var at: nat :| InFlight(cl, h, at) && (before ==> at + |cl.queue| == |h|);
    EmitKeepsInFlight(cl, h, s, at, heard);
  }

  lemma SubscribersAfterNotify(subscribers: map<RunId, seq<Conn>>, r: RunId, dead: set<Conn>, run: RunId, conn: Conn)
    ensures conn in SubscribersOf(Notified(subscribers, r, dead), run) ==>
              conn in SubscribersOf(subscribers, run) && (r == run ==> conn !in dead)
  {
  }

  /** An emit of our own run. */
  lemma HearingKeepsClient(cl: Client, h: seq<Stamp>, g: nat, s: Stamp, before: bool, heard: bool, after: bool)
    requires ClientSound(cl, h, g, before) && Increasing(h + [s]) && s.n == g + 1
    requires (heard ==> before) && (after ==> heard)
    ensures ClientSound(if heard then cl.(queue := cl.queue + [s]) else cl, h + [s], g + 1, after)
  {
    var queue := if heard then cl.queue + [s] else cl.queue;
    EmitKeepsApplied(cl, h, s, queue);
    EmitKeepsQueue(cl, h, s, before, heard, after);
    assert cl.(queue := cl.queue) == cl;
  }

  lemma OwnEmitKeepsClient(s: System, c: Limits, run: RunId, kind: string, payload: Option<Json>, dead: set<Conn>)
    requires Sane(c) && Invariant(s, c, run)
    ensures var t := Perform(s, c, run, Emitting(run, kind, payload, dead));
            ClientSound(t.client, HistoryOf(t.bus.history, run), t.bus.globalSeq, Listening(t, run))
  {
    var before := Listening(s, run);
    var heard := before && Mine(s.client.conns - 1) !in dead;
    var after := Listening(Perform(s, c, run, Emitting(run, kind, payload, dead)), run);
    assert after ==> heard by {
      if s.client.conns > 0 {
        SubscribersAfterNotify(s.bus.subscribers, run, dead, run, Mine(s.client.conns - 1));
      }
    }
    var h, stamp := HistoryOf(s.bus.history, run), NewEvent(s.bus, c, run, kind, payload).stamp;
    assert Increasing(h + [stamp]) by {
      assert HistorySound(s.bus, run);
      HistoryGrows(h, stamp);
    }
    HearingKeepsClient(s.client, h, s.bus.globalSeq, stamp, before, heard, after);
  }

  lemma ListeningIsEnough(cl: Client, h: seq<Stamp>, g: nat, before: bool, after: bool)
    requires ClientSound(cl, h, g, before) && (after ==> before)
    ensures ClientSound(cl, h, g + 1, after)
  {
    var at: nat :| InFlight(cl, h, at) && (before ==> at + |cl.queue| == |h|);
    assert InFlight(cl, h, at);
  }

  lemma OtherEmitKeepsClient(s: System, c: Limits, run: RunId, r: RunId, kind: string, payload: Option<Json>, dead: set<Conn>)
    requires Sane(c) && Invariant(s, c, run) && r != run
    ensures var t := Perform(s, c, run, Emitting(r, kind, payload, dead));
            ClientSound(t.client, HistoryOf(t.bus.history, run), t.bus.globalSeq, Listening(t, run))
  {
    var t := Perform(s, c, run, Emitting(r, kind, payload, dead));
    if s.client.conns > 0 {
      SubscribersAfterNotify(s.bus.subscribers, r, dead, run, Mine(s.client.conns - 1));
    }
    ListeningIsEnough(s.client, HistoryOf(s.bus.history, run), s.bus.globalSeq, Listening(s, run), Listening(t, run));
  }

  lemma EmitKeepsConnections(s: System, c: Limits, run: RunId, r: RunId, kind: string, payload: Option<Json>, dead: set<Conn>)
    requires OwnConnections(s.bus.subscribers, run, s.client.conns)
    ensures OwnConnections(Emit(s.bus, c, r, kind, payload, dead).subscribers, run, s.client.conns)
  {
    forall n: nat | Mine(n) in SubscribersOf(Notified(s.bus.subscribers, r, dead), run)
      ensures n < s.client.conns
    {
      SubscribersAfterNotify(s.bus.subscribers, r, dead, run, Mine(n));
    }
  }

  lemma EmittingKeepsInvariant(s: System, c: Limits, run: RunId, r: RunId, kind: string, payload: Option<Json>, dead: set<Conn>)
    requires Sane(c) && Invariant(s, c, run)
    ensures Invariant(Perform(s, c, run, Emitting(r, kind, payload, dead)), c, run)
  {
    EmitKeepsInvariant(s.bus, c, r, kind, payload, dead);
    EmitKeepsConnections(s, c, run, r, kind, payload, dead);
    if r == run {
      OwnEmitKeepsClient(s, c, run, kind, payload, dead);
    } else {
      OtherEmitKeepsClient(s, c, run, r, kind, payload, dead);
    }
  }

  /** Actions of others that touch neither our history nor our frames. */
  lemma OthersKeepInvariant(s: System, c: Limits, run: RunId, bus: Bus)
    requires Invariant(s, c, run) && Events.Invariant(bus, c)
    requires HistoryOf(bus.history, run) == HistoryOf(s.bus.history, run) && bus.globalSeq >= s.bus.globalSeq
    requires forall n: nat :: Mine(n) in SubscribersOf(bus.subscribers, run) ==> Mine(n) in SubscribersOf(s.bus.subscribers, run)
    ensures Invariant(s.(bus := bus), c, run)
  {
    var at: nat :| InFlight(s.client, HistoryOf(s.bus.history, run), at)
              && (Listening(s, run) ==> at + |s.client.queue| == |HistoryOf(s.bus.history, run)|);
    assert InFlight(s.client, HistoryOf(bus.history, run), at);
  }

  lemma SuffixIncreases(x: seq<Stamp>, h: seq<Stamp>)
    requires IsSuffix(x, h) && Increasing(h)
    ensures Increasing(x)
    ensures x != [] ==> x[|x| - 1] == h[|h| - 1]
  {
    assert forall i :: 0 <= i < |x| ==> x[i] == h[|h| - |x| + i];
  }

  lemma DropOfSuffix(x: seq<Stamp>, h: seq<Stamp>, k: nat)
    requires IsSuffix(x, h) && k <= |x|
    ensures IsSuffix(x[k..], h)
  {
  }

  /** What a replay returns is an end of the history. */
  lemma ReplayIsSuffix(b: Bus, c: Limits, run: RunId, n: int)
    requires Events.Invariant(b, c) && run in b.logs
    ensures IsSuffix(Stamps(EventsSinceWithGap(b, run, n).events), HistoryOf(b.history, run))
  {
    var stamps, h := Stamps(b.logs[run]), HistoryOf(b.history, run);
    assert IsSuffix(stamps, h) && b.logs[run] != [] by {
      assert LogSound(b, c, run);
    }
    assert Increasing(h) by {
      assert HistorySound(b, run);
    }
    SuffixIncreases(stamps, h);
    SinceIsLater(b.logs[run], n);
    LaterIsDrop(stamps, n);
    DropOfSuffix(stamps, h, Count(stamps, n));
  }

  /** Frames that are an end of the history, with nothing missing before them. */
  lemma ReplayedQueueIsSound(cl: Client, h: seq<Stamp>)
    requires IsSuffix(cl.queue, h) && (cl.last > 0 && !cl.gap ==> |h| - |cl.queue| <= Count(h, cl.last))
    ensures QueueSound(cl, h, true)
  {
    assert InFlight(cl, h, |h| - |cl.queue|);
  }

  lemma ConnectKeepsQueue(s: System, c: Limits, run: RunId)
    requires Sane(c) && Invariant(s, c, run) && run in s.bus.logs
    ensures QueueSound(Connect(s, c, run).client, HistoryOf(s.bus.history, run), true)
  {
    var h, replay := HistoryOf(s.bus.history, run), EventsSinceWithGap(s.bus, run, s.client.last);
    var stamps := Stamps(replay.events);
    ReplayIsSuffix(s.bus, c, run, s.client.last);
    if s.client.last > 0 && !replay.gap {
      NoGapNoLoss(s.bus, c, run, s.client.last);
      assert HistorySound(s.bus, run);
      LaterIsDrop(h, s.client.last);
      assert |stamps| == |h| - Count(h, s.client.last);
    }
    ReplayedQueueIsSound(Connect(s, c, run).client, h);
  }

  lemma ConnectKeepsInvariant(s: System, c: Limits, run: RunId)
    requires Sane(c) && Invariant(s, c, run)
    ensures Invariant(Connect(s, c, run), c, run)
  {
    if run in s.bus.logs {
      ConnectKeepsQueue(s, c, run);
      SubscribeKeepsInvariant(s.bus, c, run, Mine(s.client.conns));
    }
  }

  lemma ResyncReachesEnd(b: Bus, c: Limits, cl: Client, run: RunId)
    requires Events.Invariant(b, c)
    ensures var t := Resync(b, cl, run);
            && t.base == t.last <= b.globalSeq && AppliedExactly(t, HistoryOf(b.history, run))
            && (t.last > 0 ==> Count(HistoryOf(b.history, run), t.last) == |HistoryOf(b.history, run)|)
  {
    var h := HistoryOf(b.history, run);
    assert HistorySound(b, run);
    if run in b.logs {
      assert LogSound(b, c, run);
      SuffixIncreases(Stamps(b.logs[run]), h);
      CountIs(h, h[|h| - 1].n, |h|);
    }
  }

  /** `to` events of the history are not after the cursor. */
  lemma ApplyExtends(cl: Client, h: seq<Stamp>, at: nat, to: nat, start: nat)
    requires at < |h| && cl.base <= cl.last && AppliedUpTo(cl, h, to, start)
    requires h[at].n <= cl.last <==> at < to
    requires cl.last > 0 ==> at <= to
    ensures AppliedUpTo(Apply(cl, h[at]), h, if at < to then to else at + 1, start)
  {
  }

  lemma {:induction false} ApplyKeepsClient(cl: Client, h: seq<Stamp>, at: nat)
    requires AppliedExactly(cl, h) && Increasing(h) && at < |h| && cl.base <= cl.last
    requires cl.last > 0 ==> at <= Count(h, cl.last)
    ensures var t := Apply(cl, h[at]);
            AppliedExactly(t, h) && cl.base <= t.last && t.last > 0 && at + 1 <= Count(h, t.last)
  {
    CountSplits(h, cl.last, at);
    if h[at].n > cl.last {
      ApplyExtends(cl, h, at, Count(h, cl.last), Count(h, cl.base));
      CountAfter(h, cl.last, at);
      assert Count(h, Apply(cl, h[at]).last) == at + 1;
    }
  }

  lemma CountAfter(h: seq<Stamp>, n: nat, at: nat)
    requires Increasing(h) && at < |h|
    ensures h[at].n > n ==> Count(h, h[at].n) == at + 1
  {
    CountIs(h, h[at].n, at + 1);
  }

  lemma ResyncKeepsInvariant(s: System, c: Limits, run: RunId)
    requires Invariant(s, c, run)
    ensures Invariant(s.(client := Resync(s.bus, s.client.(gap := false), run)), c, run)
  {
    var cl, h := s.client, HistoryOf(s.bus.history, run);
    var at: nat :| InFlight(cl, h, at) && (Listening(s, run) ==> at + |cl.queue| == |h|);
    var t := Resync(s.bus, cl.(gap := false), run);
    ResyncReachesEnd(s.bus, c, cl.(gap := false), run);
    assert InFlight(t, h, at);
  }

  lemma NextFrameKeepsClient(cl: Client, h: seq<Stamp>, g: nat, listening: bool)
    requires ClientSound(cl, h, g, listening) && Increasing(h) && (forall i :: 0 <= i < |h| ==> h[i].n <= g)
    requires !cl.gap && cl.queue != []
    ensures ClientSound(Apply(cl.(queue := cl.queue[1..]), cl.queue[0]), h, g, listening)
  {
    var at: nat :| InFlight(cl, h, at) && (listening ==> at + |cl.queue| == |h|);
    var rest := cl.(queue := cl.queue[1..]);
    assert cl.queue[0] == h[at];
    ApplyKeepsClient(rest, h, at);
    assert InFlight(Apply(rest, h[at]), h, at + 1);
  }

  lemma NextFrameKeepsInvariant(s: System, c: Limits, run: RunId)
    requires Invariant(s, c, run) && !s.client.gap && s.client.queue != []
    ensures Invariant(s.(client := Apply(s.client.(queue := s.client.queue[1..]), s.client.queue[0])), c, run)
  {
    assert HistorySound(s.bus, run);
    NextFrameKeepsClient(s.client, HistoryOf(s.bus.history, run), s.bus.globalSeq, Listening(s, run));
  }

  lemma LosingKeepsInvariant(s: System, c: Limits, run: RunId)
    requires Invariant(s, c, run)
    ensures Invariant(Perform(s, c, run, Losing), c, run)
  {
    var t := Perform(s, c, run, Losing);
    assert InFlight(t.client, HistoryOf(s.bus.history, run), 0);
  }

  lemma PerformKeepsInvariant(s: System, c: Limits, run: RunId, a: Act)
    requires Sane(c) && Invariant(s, c, run)
    ensures Invariant(Perform(s, c, run, a), c, run)
  {
    match a
    case Emitting(r, kind, payload, dead) => EmittingKeepsInvariant(s, c, run, r, kind, payload, dead);
    case SettingMode(r, mode) =>
      SetPrivacyModeKeepsInvariant(s.bus, c, r, mode);
      OthersKeepInvariant(s, c, run, SetPrivacyMode(s.bus, c, r, mode));
    case Joining(r, conn) =>
      if conn.client != SELF {
        SubscribeKeepsInvariant(s.bus, c, r, conn);
        OthersKeepInvariant(s, c, run, Subscribe(s.bus, c, r, conn));
      }
    case Leaving(r, conn) =>
      UnsubscribeKeepsInvariant(s.bus, c, r, conn);
      OthersKeepInvariant(s, c, run, Unsubscribe(s.bus, r, conn));
    case Clearing(r) =>
      ClearRunKeepsInvariant(s.bus, c, r);
      OthersKeepInvariant(s, c, run, ClearRun(s.bus, r));
    case Connecting => ConnectKeepsInvariant(s, c, run);
    case Delivering =>
      if s.client.gap {
        ResyncKeepsInvariant(s, c, run);
      } else if s.client.queue != [] {
        NextFrameKeepsInvariant(s, c, run);
      }
    case Losing => LosingKeepsInvariant(s, c, run);
  }

  lemma {:induction false} ExecuteKeepsInvariant(c: Limits, run: RunId, acts: seq<Act>)
    requires Sane(c)
    ensures Invariant(Execute(c, run, acts), c, run)
  {
    if acts == [] {
      assert InFlight(START.client, [], 0);
    } else {
      var earlier := acts[..|acts| - 1];
      ExecuteKeepsInvariant(c, run, earlier);
      PerformKeepsInvariant(Execute(c, run, earlier), c, run, acts[|acts| - 1]);
    }
  }

  // ---------- what the client ends up with ----------

  /** Whatever is emitted, evicted, pruned, cleared, lost or reconnected, the
      client has applied exactly the events of its run's whole history that lie
      between its baseline and its cursor: each once, in order, none missing.
      With no snapshot yet, the first event it applied is the baseline. */
  lemma ClientAppliesExactHistory(c: Limits, run: RunId, acts: seq<Act>)
    requires Sane(c)
    ensures var s := Execute(c, run, acts);
            var cl, h := s.client, HistoryOf(s.bus.history, run);
            var start := if cl.base > 0 || cl.applied == [] then cl.base else cl.applied[0].n - 1;
            && Increasing(cl.applied)
            && (forall x :: x in cl.applied ==> x in h)
            && (forall x :: x in h ==> (x in cl.applied <==> start < x.n <= cl.last))
  {
    ExecuteKeepsInvariant(c, run, acts);
    var s := Execute(c, run, acts);
    ExactlyBetween(s.client, HistoryOf(s.bus.history, run), s.bus, run);
  }

  lemma ExactlyBetween(cl: Client, h: seq<Stamp>, b: Bus, run: RunId)
    requires AppliedExactly(cl, h) && h == HistoryOf(b.history, run) && HistorySound(b, run) && cl.base <= cl.last
    ensures var start := if cl.base > 0 || cl.applied == [] then cl.base else cl.applied[0].n - 1;
            && Increasing(cl.applied)
            && (forall x :: x in cl.applied ==> x in h)
            && (forall x :: x in h ==> (x in cl.applied <==> start < x.n <= cl.last))
  {
    var to := Count(h, cl.last);
    var from := to - |cl.applied|;
    var start := if cl.base > 0 || cl.applied == [] then cl.base else cl.applied[0].n - 1;
    forall i | 0 <= i < |h|
      ensures h[i] in cl.applied <==> start < h[i].n <= cl.last
    {
      CountSplits(h, cl.last, i);
      CountSplits(h, cl.base, i);
      if from <= i < to {
        assert cl.applied[i - from] == h[i];
      }
    }
  }

  // ---------- the client catches up ----------

  ghost predicate CaughtUp(cl: Client, h: seq<Stamp>) {
    forall i :: 0 <= i < |h| ==> h[i].n <= cl.last
  }

  /** Every frame in flight arrives. */
  function Drain(s: System, run: RunId): System
    decreases s.client.gap, |s.client.queue|
  {
    if !s.client.gap && s.client.queue == [] then s else Drain(Deliver(s, run), run)
  }

  /** The client has seen something of its run or is about to. */
  predicate Follows(cl: Client) {
    cl.last > 0 || cl.gap || cl.queue != []
  }

  lemma QueueEndReached(cl: Client, h: seq<Stamp>)
    requires QueueSound(cl, h, true) && Increasing(h) && cl.last > 0 && !cl.gap && cl.queue == []
    ensures CaughtUp(cl, h)
  {
    forall i | 0 <= i < |h|
      ensures h[i].n <= cl.last
    {
      CountSplits(h, cl.last, i);
    }
  }

  lemma DeliveringMoves(s: System, c: Limits, run: RunId)
    requires Sane(c) && Invariant(s, c, run) && run in s.bus.logs && Follows(s.client)
    ensures Follows(Deliver(s, run).client)
  {
    assert LogSound(s.bus, c, run) && HistorySound(s.bus, run);
    var h, log := HistoryOf(s.bus.history, run), s.bus.logs[run];
    SuffixIncreases(Stamps(log), h);
    assert log[|log| - 1].stamp == Stamps(log)[|log| - 1];
    if !s.client.gap && s.client.queue != [] {
      var at: nat :| InFlight(s.client, h, at);
      assert s.client.queue[0] == h[at];
    }
  }

  /** Once every frame in flight has arrived, a client the bus still writes to has
      reached the end of its run's history. */
  lemma {:induction false} DrainCatchesUp(s: System, c: Limits, run: RunId)
    requires Sane(c) && Invariant(s, c, run) && Listening(s, run) && run in s.bus.logs && Follows(s.client)
    ensures CaughtUp(Drain(s, run).client, HistoryOf(s.bus.history, run)) && Drain(s, run).bus == s.bus
    decreases s.client.gap, |s.client.queue|
  {
    if !s.client.gap && s.client.queue == [] {
      assert HistorySound(s.bus, run);
      QueueEndReached(s.client, HistoryOf(s.bus.history, run));
    } else {
      PerformKeepsInvariant(s, c, run, Delivering);
      DeliveringMoves(s, c, run);
      DrainCatchesUp(Deliver(s, run), c, run);
    }
  }

  /** A connection to a run whose log is held is heard, and brings a gap frame or a
      first frame unless the client was somewhere already. */
  lemma ConnectFollows(s: System, c: Limits, run: RunId)
    requires Sane(c) && Invariant(s, c, run) && run in s.bus.logs
    ensures var t := Connect(s, c, run); Listening(t, run) && Follows(t.client) && run in t.bus.logs && t.bus.history == s.bus.history
  {
    var log := s.bus.logs[run];
    assert LogSound(s.bus, c, run) && HistorySound(s.bus, run);
    SuffixIncreases(Stamps(log), HistoryOf(s.bus.history, run));
    SinceIsLater(log, 0);
    LaterIsEmpty(Stamps(log), 0);
    assert Stamps(log)[0].n > 0;
  }

  /** From any reachable state: a client that reconnects while its run's log is held,
      and receives what is then in flight, has reached the end of the history. */
  lemma ReconnectCatchesUp(c: Limits, run: RunId, acts: seq<Act>)
    requires Sane(c) && run in Execute(c, run, acts).bus.logs
    ensures var s := Execute(c, run, acts);
            CaughtUp(Drain(Connect(s, c, run), run).client, HistoryOf(s.bus.history, run))
  {
    ExecuteKeepsInvariant(c, run, acts);
    var s := Execute(c, run, acts);
    ConnectFollows(s, c, run);
    ConnectKeepsInvariant(s, c, run);
    DrainCatchesUp(Connect(s, c, run), c, run);
  }

  /** So does one that never lost its connection, whatever was emitted meanwhile. */
  lemma ListenerCatchesUp(c: Limits, run: RunId, acts: seq<Act>)
    requires Sane(c)
    requires var s := Execute(c, run, acts); run in s.bus.logs && Listening(s, run) && Follows(s.client)
    ensures var s := Execute(c, run, acts); CaughtUp(Drain(s, run).client, HistoryOf(s.bus.history, run))
  {
    ExecuteKeepsInvariant(c, run, acts);
    DrainCatchesUp(Execute(c, run, acts), c, run);
  }

  /** The drained state is reached by deliveries alone. */
  lemma {:induction false} DrainIsDelivering(c: Limits, run: RunId, acts: seq<Act>) returns (more: seq<Act>)
    ensures (forall i :: 0 <= i < |more| ==> more[i] == Delivering) && Execute(c, run, acts + more) == Drain(Execute(c, run, acts), run)
    decreases Execute(c, run, acts).client.gap, |Execute(c, run, acts).client.queue|
  {
    var s := Execute(c, run, acts);
    if !s.client.gap && s.client.queue == [] {
      more := [];
      assert acts + [] == acts;
    } else {
      assert (acts + [Delivering])[..|acts|] == acts;
      var rest := DrainIsDelivering(c, run, acts + [Delivering]);
      more := [Delivering] + rest;
      assert acts + more == acts + [Delivering] + rest;
    }
  }

  /** In every reachable state, all logged payloads of a run with a privacy
      mode are fixpoints of that mode. */
  lemma {:induction false} LoggedPayloadsAreClean(c: Limits, run: RunId, acts: seq<Act>, r: RunId)
    requires Sane(c)
    ensures var b := Execute(c, run, acts).bus; r in b.logs && r in b.modes ==> AllClean(c, b.logs[r], b.modes[r])
  {
    ExecuteKeepsInvariant(c, run, acts);
    var b := Execute(c, run, acts).bus;
    if r in b.logs {
      assert LogSound(b, c, r);
    }
  }
}
