// What an unbounded log of a run would hold, and that the bus retains and
// replays an end of it, payloads included.
module EventTraces {
  import opened Wrappers
  import opened Json
  import opened Privacy
  import opened EventBus
  import opened EventClient

  /** The log of a run if nothing were ever evicted, pruned or cleared; the number
      of events of all runs so far, and the mode of the run. */
  datatype Full = Full(emitted: nat, mode: Option<Mode>, events: seq<Event>)

  /** The value an event shows of what was emitted: a marker for what cannot be
      serialized, null for nothing, and otherwise the value itself. */
  function Value(payload: Option<Json>): Json {
    if payload.None? then Obj([Field(Ascii("_unserializable"), Bool(true))])
    else if payload.value.Undef? then Null
    else payload.value
  }

  function Rewritten(c: Limits, events: seq<Event>, mode: Mode): (r: seq<Event>)
    ensures |r| == |events|
    ensures forall i :: 0 <= i < |r| ==> r[i] == Event(events[i].stamp, c.clean(events[i].payload, mode))
  {
    seq(|events|, i requires 0 <= i < |events| => Event(events[i].stamp, c.clean(events[i].payload, mode)))
  }

  /** What an action adds to it or makes of it. */
  function Record(c: Limits, run: RunId, f: Full, a: Act): Full {
    match a
    case Emitting(r, kind, payload, _) =>
      var shown := if f.mode.Some? then c.clean(Value(payload), f.mode.value) else Value(payload);
      f.(emitted := f.emitted + 1,
         events := if r == run then f.events + [Event(Stamp(f.emitted + 1, kind), shown)] else f.events)
    case SettingMode(r, mode) =>
      if r == run && run.text != "" then f.(mode := Some(mode), events := Rewritten(c, f.events, mode)) else f
    case Clearing(r) => if r == run then f.(mode := None) else f
    case _ => f
  }

  function FullLog(c: Limits, run: RunId, acts: seq<Act>): Full {
    if acts == [] then Full(0, None, []) else Record(c, run, FullLog(c, run, acts[..|acts| - 1]), acts[|acts| - 1])
  }

  ghost predicate EndOf(log: seq<Event>, full: seq<Event>) {
    |log| <= |full| && log == full[|full| - |log|..]
  }

  /** The bus knows the mode and the numbers, has the history of the full log, and
      retains an end of it. */
  ghost predicate Follows(b: Bus, run: RunId, f: Full) {
    && b.globalSeq == f.emitted
    && (if run in b.modes then f.mode == Some(b.modes[run]) else f.mode == None)
    && HistoryOf(b.history, run) == Stamps(f.events)
    && EndOf(LogOf(b.logs, run), f.events)
  }

  lemma EndGrows(log: seq<Event>, full: seq<Event>, e: Event)
    requires EndOf(log, full)
    ensures EndOf(log + [e], full + [e])
    ensures log != [] ==> EndOf(log[1..] + [e], full + [e])
  {
  }

  lemma EndIsRewritten(c: Limits, log: seq<Event>, full: seq<Event>, mode: Mode)
    requires EndOf(log, full)
    ensures EndOf(Cleaned(c, log, mode), Rewritten(c, full, mode))
    ensures Stamps(Rewritten(c, full, mode)) == Stamps(full)
  {
  }

  lemma NewEventShows(b: Bus, c: Limits, run: RunId, f: Full, kind: string, payload: Option<Json>)
    requires Follows(b, run, f)
    ensures var shown := if f.mode.Some? then c.clean(Value(payload), f.mode.value) else Value(payload);
            NewEvent(b, c, run, kind, payload) == Event(Stamp(f.emitted + 1, kind), shown)
  {
  }

  /** The own log, once `e` is put at its end. */
  lemma OwnLogFollows(before: seq<Event>, full: seq<Event>, e: Event, max: nat)
    requires EndOf(before, full) && max > 0
    ensures EndOf((if |before| < max then before else before[1..]) + [e], full + [e])
    ensures Stamps(full + [e]) == Stamps(full) + [e.stamp]
  {
    EndGrows(before, full, e);
  }

  lemma OwnEmitFollows(b: Bus, c: Limits, run: RunId, f: Full, kind: string, payload: Option<Json>, dead: set<Conn>)
    requires Sane(c) && Events.Invariant(b, c) && Follows(b, run, f)
    ensures Follows(Emit(b, c, run, kind, payload, dead), run, Record(c, run, f, Emitting(run, kind, payload, dead)))
  {
    var e := NewEvent(b, c, run, kind, payload);
    EmitIsLogged(b, c, run, kind, payload, dead);
    NewEventShows(b, c, run, f, kind, payload);
    OwnLogFollows(LogOf(b.logs, run), f.events, e, c.replay);
    assert Record(c, run, f, Emitting(run, kind, payload, dead)) == f.(emitted := f.emitted + 1, events := f.events + [e]);
  }

  lemma OtherEmitFollows(b: Bus, t: Bus, run: RunId, f: Full)
    requires Follows(b, run, f) && t.globalSeq == b.globalSeq + 1 && t.modes == b.modes
    requires HistoryOf(t.history, run) == HistoryOf(b.history, run)
    requires run in t.logs ==> run in b.logs && t.logs[run] == b.logs[run]
    ensures Follows(t, run, f.(emitted := f.emitted + 1))
  {
    assert LogOf(t.logs, run) == LogOf(b.logs, run) || LogOf(t.logs, run) == [];
    assert EndOf([], f.events);
  }

  lemma EmittingFollows(b: Bus, c: Limits, run: RunId, f: Full, r: RunId, kind: string, payload: Option<Json>, dead: set<Conn>)
    requires Sane(c) && Events.Invariant(b, c) && Follows(b, run, f)
    ensures Follows(Emit(b, c, r, kind, payload, dead), run, Record(c, run, f, Emitting(r, kind, payload, dead)))
  {
    if r == run {
      OwnEmitFollows(b, c, run, f, kind, payload, dead);
    } else {
      EmitIsLogged(b, c, r, kind, payload, dead);
      OtherEmitFollows(b, Emit(b, c, r, kind, payload, dead), run, f);
    }
  }

  lemma SettingModeFollows(b: Bus, c: Limits, run: RunId, f: Full, r: RunId, mode: Mode)
    requires Follows(b, run, f)
    ensures Follows(SetPrivacyMode(b, c, r, mode), run, Record(c, run, f, SettingMode(r, mode)))
  {
    if r == run && run.text != "" {
      EndIsRewritten(c, LogOf(b.logs, run), f.events, mode);
      assert run !in b.logs ==> EndOf([], Rewritten(c, f.events, mode));
    }
  }

  lemma ClearingFollows(b: Bus, t: Bus, run: RunId, f: Full, r: RunId)
    requires Follows(b, run, f) && t.globalSeq == b.globalSeq && t.history == b.history
    requires t.logs == b.logs - {r} && t.modes == b.modes - {r}
    ensures Follows(t, run, if r == run then f.(mode := None) else f)
  {
    assert HistoryOf(t.history, run) == HistoryOf(b.history, run);
    if r == run {
      assert LogOf(t.logs, run) == [] && EndOf([], f.events);
    } else {
      assert LogOf(t.logs, run) == LogOf(b.logs, run);
    }
  }

  /** Subscribing and the client's own actions touch neither logs nor modes. */
  lemma QuietActions(s: System, c: Limits, run: RunId, a: Act)
    requires a.Joining? || a.Leaving? || a.Connecting? || a.Delivering? || a.Losing?
    ensures exists subscribers :: Perform(s, c, run, a).bus == s.bus.(subscribers := subscribers)
  {
    assert Perform(s, c, run, a).bus == s.bus.(subscribers := Perform(s, c, run, a).bus.subscribers);
  }

  lemma ActionFollows(s: System, c: Limits, run: RunId, f: Full, a: Act)
    requires Sane(c) && Events.Invariant(s.bus, c) && Follows(s.bus, run, f)
    ensures Follows(Perform(s, c, run, a).bus, run, Record(c, run, f, a))
  {
    match a
    case Emitting(r, kind, payload, dead) =>
      assert Perform(s, c, run, a).bus == Emit(s.bus, c, r, kind, payload, dead);
      EmittingFollows(s.bus, c, run, f, r, kind, payload, dead);
    case SettingMode(r, mode) =>
      assert Perform(s, c, run, a).bus == SetPrivacyMode(s.bus, c, r, mode);
      SettingModeFollows(s.bus, c, run, f, r, mode);
    case Clearing(r) =>
      ClearingFollows(s.bus, Perform(s, c, run, a).bus, run, f, r);
    case _ => QuietActions(s, c, run, a);
  }

  /** After any actions, what the bus retains of a run is the end of everything
      the run ever emitted, each payload as it was emitted and rewritten by the
      modes in force then and set since, and nothing else. */
  lemma {:induction false} RetainedIsWhatWasEmitted(c: Limits, run: RunId, acts: seq<Act>)
    requires Sane(c)
    ensures Follows(Execute(c, run, acts).bus, run, FullLog(c, run, acts))
  {
    if acts == [] {
      assert Stamps([]) == [];
    } else {
      var earlier := acts[..|acts| - 1];
      RetainedIsWhatWasEmitted(c, run, earlier);
      ExecuteKeepsInvariant(c, run, earlier);
      ActionFollows(Execute(c, run, earlier), c, run, FullLog(c, run, earlier), acts[|acts| - 1]);
    }
  }

  lemma {:induction false} SinceSplits(p: seq<Event>, s: seq<Event>, n: int)
    ensures Since(p + s, n) == Since(p, n) + Since(s, n)
  {
    if p == [] {
      assert p + s == s;
    } else {
      assert (p + s)[0] == p[0] && (p + s)[1..] == p[1..] + s;
      SinceSplits(p[1..], s, n);
      var first := if p[0].stamp.n > n then [p[0]] else [];
      assert Since(p, n) == first + Since(p[1..], n) && Since(p + s, n) == first + Since(p[1..] + s, n);
      assert first + (Since(p[1..], n) + Since(s, n)) == first + Since(p[1..], n) + Since(s, n);
    }
  }

  lemma {:induction false} NoneSince(p: seq<Event>, n: int)
    requires forall i :: 0 <= i < |p| ==> p[i].stamp.n <= n
    ensures Since(p, n) == []
  {
    if p != [] {
      NoneSince(p[1..], n);
    }
  }

  lemma ReplayFollows(b: Bus, c: Limits, run: RunId, f: Full, n: int)
    requires Events.Invariant(b, c) && Follows(b, run, f) && run in b.logs && n > 0 && !EventsSinceWithGap(b, run, n).gap
    ensures EventsSinceWithGap(b, run, n).events == Since(f.events, n)
  {
    assert LogSound(b, c, run) && HistorySound(b, run);
    var log, h := b.logs[run], HistoryOf(b.history, run);
    var k := |f.events| - |log|;
    assert f.events == f.events[..k] + log;
    forall i | 0 <= i < k
      ensures f.events[i].stamp.n <= n
    {
      assert h[i].n < h[k].n && h[k] == log[0].stamp;
    }
    SinceSplits(f.events[..k], log, n);
    NoneSince(f.events[..k], n);
  }

  /** A replay past the start, of a held log and without a gap, is everything the
      run emitted after the cursor, payloads included. */
  lemma ReplayIsWhatWasEmitted(c: Limits, run: RunId, acts: seq<Act>, n: int)
    requires Sane(c)
    requires var b := Execute(c, run, acts).bus; run in b.logs && n > 0 && !EventsSinceWithGap(b, run, n).gap
    ensures EventsSinceWithGap(Execute(c, run, acts).bus, run, n).events == Since(FullLog(c, run, acts).events, n)
  {
    RetainedIsWhatWasEmitted(c, run, acts);
    ExecuteKeepsInvariant(c, run, acts);
    ReplayFollows(Execute(c, run, acts).bus, c, run, FullLog(c, run, acts), n);
  }
}
