// Idempotency records: one winner per key, bounded with eviction, and the same
// over a shared key-value store with expiry.
module Idempotency {
  import opened Wrappers

  type Key = Name

  datatype State = Pending | Running | Completed | Failed

  datatype Rec = Rec(state: State, updatedAt: int)

  predicate Finished(r: Rec) {
    r.state == Completed || r.state == Failed
  }

  /** The records with their keys in insertion order, and what happened to keys. */
  datatype Event = Fresh(key: Key) | Evicted(key: Key) | Wiped
  datatype Store = Store(order: seq<Key>, records: map<Key, Rec>, log: seq<Event>)

  /** The first of the finished records with the oldest stamp. */
  function OldestFinished(order: seq<Key>, records: map<Key, Rec>): Option<Key> {
    if order == [] then None
    else
      var k, rest := order[|order| - 1], OldestFinished(order[..|order| - 1], records);
      if k !in records || !Finished(records[k]) then rest
      else if rest.None? || rest.value !in records || records[k].updatedAt < records[rest.value].updatedAt then Some(k)
      else rest
  }

  function Without(order: seq<Key>, k: Key): (r: seq<Key>)
    ensures forall x :: x in r <==> x in order && x != k
    ensures |r| <= |order| && (k in order ==> |r| < |order|)
  {
    if order == [] then [] else if order[0] == k then Without(order[1..], k) else [order[0]] + Without(order[1..], k)
  }

  /** What to evict: the oldest finished record, or else the first one. An
      empty key counts as none found. */
  function Victim(s: Store): Key
    requires s.order != []
  {
    var k := OldestFinished(s.order, s.records);
    if k.Some? && k.value.text != "" then k.value else s.order[0]
  }

  function Drop(s: Store, k: Key): Store {
    Store(Without(s.order, k), s.records - {k}, s.log + [Evicted(k)])
  }

  ghost predicate Distinct(order: seq<Key>) {
    forall i, j :: 0 <= i < j < |order| ==> order[i] != order[j]
  }

  ghost predicate Coherent(s: Store) {
    && Distinct(s.order)
    && (forall k :: k in s.order <==> k in s.records)
  }

  function Evict(s: Store, max: nat): Store
    decreases |s.order|
  {
    if |s.order| <= max || s.order == [] || Victim(s).text == "" || Victim(s) !in s.order then s
    else Evict(Drop(s, Victim(s)), max)
  }

  function Insert(s: Store, k: Key, r: Rec): Store {
    s.(order := if k in s.records then s.order else s.order + [k], records := s.records[k := r])
  }

  /** None stands for the exception an empty key raises. */
  function Begin(s: Store, max: nat, k: Key, state: State, now: int): Option<Store> {
    if k.text == "" then None
    else if k in s.records then Some(s)
    else Some(Evict(Insert(s, k, Rec(state, now)).(log := s.log + [Fresh(k)]), max))
  }

  function Finish(s: Store, max: nat, k: Key, state: State, now: int): Store {
    Evict(Insert(s, k, Rec(state, now)), max)
  }

  datatype Act =
    | DoBegin(key: Key, state: State, now: int)
    | DoFinish(key: Key, ok: bool, now: int)
    | DoMirror(key: Key, state: State, now: int)  // a win of the remote backend is mirrored
    | DoClear

  function Perform(s: Store, max: nat, a: Act): Store {
    match a
    case DoBegin(k, state, now) => if Begin(s, max, k, state, now).Some? then Begin(s, max, k, state, now).value else s
    case DoFinish(k, ok, now) => Finish(s, max, k, if ok then Completed else Failed, now)
    case DoMirror(k, state, now) => if k.text == "" then s else Finish(s, max, k, state, now)
    case DoClear => Store([], map[], s.log + [Wiped])
  }

  function Execute(s: Store, max: nat, acts: seq<Act>): Store {
    if acts == [] then s else Perform(Execute(s, max, acts[..|acts| - 1]), max, acts[|acts| - 1])
  }

  /** One record was written and what else is held is as it was; records were given
      up only down to the bound. */
  ghost predicate Wrote(before: Store, after: Store, max: nat, key: Key, written: Rec) {
    && (key in after.records ==> after.records[key] == written)
    && (forall k :: k in after.records && k != key ==> k in before.records && after.records[k] == before.records[k])
    && |after.order| >= (if |Insert(before, key, written).order| < max then |Insert(before, key, written).order| else max)
  }

  // ---------- choosing what to evict ----------

  /** Every finished record before it is younger. */
  ghost predicate FirstOldest(order: seq<Key>, records: map<Key, Rec>, i: int) {
    && 0 <= i < |order| && order[i] in records
    && forall j :: 0 <= j < i && order[j] in records && Finished(records[order[j]]) ==> records[order[j]].updatedAt > records[order[i]].updatedAt
  }

  /** The oldest finished record, the first of equals. */
  lemma {:induction false} OldestIsFinished(order: seq<Key>, records: map<Key, Rec>)
    ensures var k := OldestFinished(order, records);
            && (k.Some? ==> k.value in order && k.value in records && Finished(records[k.value])
                            && forall x :: x in order && x in records && Finished(records[x]) ==> records[k.value].updatedAt <= records[x].updatedAt)
            && (k.None? ==> forall x :: x in order && x in records ==> !Finished(records[x]))
            && (k.Some? ==> exists i :: FirstOldest(order, records, i) && order[i] == k.value)
  {
    if order != [] {
      var n := |order| - 1;
      OldestIsFinished(order[..n], records);
      assert order == order[..n] + [order[n]];
      var k := OldestFinished(order, records);
      if k.Some? && k == OldestFinished(order[..n], records) {
        var i :| FirstOldest(order[..n], records, i) && order[..n][i] == k.value;
        assert FirstOldest(order, records, i);
      } else if k.Some? {
        assert FirstOldest(order, records, n);
      }
    }
  }

  /** An unfinished record is evicted only while no finished one is held,
      unless the only oldest finished one has an empty key. */
  lemma UnfinishedEvictedOnlyAsLastResort(s: Store)
    requires Coherent(s) && s.order != []
    ensures var k := Victim(s);
            && k in s.records
            && (!Finished(s.records[k]) ==>
                  || (forall x :: x in s.records ==> !Finished(s.records[x]))
                  || OldestFinished(s.order, s.records) == Some(Name("")))
            && (Finished(s.records[k]) && OldestFinished(s.order, s.records) == Some(k) ==>
                  forall x :: x in s.records && Finished(s.records[x]) ==> s.records[k].updatedAt <= s.records[x].updatedAt)
  {
    OldestIsFinished(s.order, s.records);
    assert s.order[0] in s.order;
    forall x | x in s.records
      ensures x in s.order
    {
    }
    var k := OldestFinished(s.order, s.records);
    assert k.Some? && k.value.text == "" ==> k == Some(Name(""));
  }

  /** The first key is empty, and no finished record is found, or only that of
      the empty key: eviction has no victim to name. */
  predicate Jammed(s: Store) {
    && s.order != [] && s.order[0].text == ""
    && (OldestFinished(s.order, s.records).None? || OldestFinished(s.order, s.records) == Some(Name("")))
  }

  lemma NoVictimIff(s: Store)
    requires s.order != []
    ensures Victim(s).text == "" <==> Jammed(s)
  {
    var k := OldestFinished(s.order, s.records);
    assert k.Some? && k.value.text == "" ==> k == Some(Name(""));
  }

  /** Exactly when an eviction takes an unfinished record although a finished one
      is held: the oldest finished one has the empty key, and the first record,
      under another key, is unfinished. */
  lemma UnfinishedEvictedDespiteFinishedIff(s: Store)
    requires Coherent(s) && s.order != [] && Victim(s).text != ""
    ensures Victim(s) in s.records && s.order[0] in s.records
    ensures !Finished(s.records[Victim(s)]) && (exists x :: x in s.records && Finished(s.records[x])) <==>
              && OldestFinished(s.order, s.records) == Some(Name("")) && s.order[0].text != "" && !Finished(s.records[s.order[0]])
  {
    OldestIsFinished(s.order, s.records);
    UnfinishedEvictedOnlyAsLastResort(s);
    assert s.order[0] in s.order;
    var k := OldestFinished(s.order, s.records);
    assert k.Some? && k.value.text == "" ==> k == Some(Name(""));
    assert k.None? ==> forall x :: x in s.records ==> x in s.order && !Finished(s.records[x]);
  }

  /** A store in which that happens. */
  lemma UnfinishedEvictedBesideEmptyKey(k: Key, log: seq<Event>)
    requires k.text != ""
    ensures var s := Store([k, Name("")], map[k := Rec(Running, 0), Name("") := Rec(Completed, 0)], log);
            && Victim(s) == k && !Finished(s.records[k]) && Finished(s.records[Name("")])
            && Evict(s, 1).order == [Name("")]
  {
    var s := Store([k, Name("")], map[k := Rec(Running, 0), Name("") := Rec(Completed, 0)], log);
    assert s.order[..1] == [k] && [k][..0] == [] && s.order[1] == Name("");
    assert OldestFinished([k], s.records) == None;
    assert OldestFinished(s.order, s.records) == Some(Name(""));
    assert Without([Name("")], k) == [Name("")] by {
      assert [Name("")][1..] == [];
    }
    assert s.order[1..] == [Name("")] && Without(s.order, k) == [Name("")];
  }

  // ---------- what every operation keeps ----------

  /** A fresh begin that nothing has undone is still recorded. */
  ghost predicate Remembers(s: Store) {
    forall i :: 0 <= i < |s.log| && s.log[i].Fresh? && !UndoneAfter(s.log, i, s.log[i].key) ==> s.log[i].key in s.records
  }

  predicate UndoneAfter(log: seq<Event>, i: int, k: Key) {
    exists m :: 0 <= m < |log| && i < m && (log[m] == Evicted(k) || log[m] == Wiped)
  }

  /** Two fresh begins of a key have an eviction or a clear of it in between. */
  ghost predicate OneWinner(log: seq<Event>) {
    forall i, j :: 0 <= i < j < |log| && log[i].Fresh? && log[j].Fresh? && log[i].key == log[j].key ==> UndoneBetween(log, i, j, log[i].key)
  }

  predicate UndoneBetween(log: seq<Event>, i: int, j: int, k: Key) {
    exists m :: 0 <= m < |log| && i < m < j && (log[m] == Evicted(k) || log[m] == Wiped)
  }

  ghost predicate Sound(s: Store) {
    Coherent(s) && Remembers(s) && OneWinner(s.log)
  }

  /** The bound, which only an empty key in first place can break. */
  predicate Bounded(s: Store, max: nat) {
    |s.order| <= max || s.order[0].text == ""
  }

  lemma WithoutKeepsDistinct(order: seq<Key>, k: Key)
    requires Distinct(order)
    ensures Distinct(Without(order, k))
  {
    if order != [] {
      WithoutKeepsDistinct(order[1..], k);
      assert order[0] !in order[1..];
    }
  }

  /** Logging something other than a fresh begin keeps the record of winners. */
  lemma LogKeepsWinners(log: seq<Event>, e: Event)
    requires OneWinner(log)
    requires e.Fresh? ==> forall i :: 0 <= i < |log| && log[i] == e ==> UndoneAfter(log, i, e.key)
    ensures OneWinner(log + [e])
  {
    var after := log + [e];
    forall i, j | 0 <= i < j < |after| && after[i].Fresh? && after[j].Fresh? && after[i].key == after[j].key
      ensures UndoneBetween(after, i, j, after[i].key)
    {
      var k := after[i].key;
      if j < |log| {
        assert UndoneBetween(log, i, j, k);
        var m :| 0 <= m < |log| && i < m < j && (log[m] == Evicted(k) || log[m] == Wiped);
        assert after[m] == log[m];
      } else {
        assert log[i] == e && UndoneAfter(log, i, k);
        var m :| 0 <= m < |log| && i < m && (log[m] == Evicted(k) || log[m] == Wiped);
        assert after[m] == log[m];
      }
    }
  }

  lemma UndoneStays(log: seq<Event>, e: Event, i: int, k: Key)
    requires 0 <= i < |log|
    ensures UndoneAfter(log + [e], i, k) <==> UndoneAfter(log, i, k) || e == Evicted(k) || e == Wiped
  {
    var after := log + [e];
    if UndoneAfter(log, i, k) {
      var m :| 0 <= m < |log| && i < m && (log[m] == Evicted(k) || log[m] == Wiped);
      assert after[m] == log[m];
    }
    if e == Evicted(k) || e == Wiped {
      assert after[|log|] == e;
    }
    if UndoneAfter(after, i, k) {
      var m :| 0 <= m < |after| && i < m && (after[m] == Evicted(k) || after[m] == Wiped);
      assert m < |log| ==> log[m] == after[m];
    }
  }

  lemma DropKeepsSound(s: Store, k: Key)
    requires Sound(s)
    ensures Sound(Drop(s, k))
  {
    WithoutKeepsDistinct(s.order, k);
    LogKeepsWinners(s.log, Evicted(k));
    var t := Drop(s, k);
    forall i | 0 <= i < |t.log| && t.log[i].Fresh? && !UndoneAfter(t.log, i, t.log[i].key)
      ensures t.log[i].key in t.records
    {
      UndoneStays(s.log, Evicted(k), i, s.log[i].key);
    }
  }

  lemma {:induction false} EvictKeepsSound(s: Store, max: nat)
    requires Sound(s)
    ensures Sound(Evict(s, max))
    ensures max > 0 ==> Bounded(Evict(s, max), max)
    decreases |s.order|
  {
    if |s.order| > max {
      UnfinishedEvictedOnlyAsLastResort(s);
      if Victim(s).text != "" {
        DropKeepsSound(s, Victim(s));
        EvictKeepsSound(Drop(s, Victim(s)), max);
      }
    }
  }

  /** Eviction stops at the bound, never goes below it, and takes away records only
      whole. */
  lemma {:induction false} EvictStopsAtBound(s: Store, max: nat)
    requires Coherent(s)
    ensures var t := Evict(s, max);
            && (|s.order| <= max ==> t == s) && (|s.order| > max ==> |t.order| >= max)
            && (forall k :: k in t.records ==> k in s.records && t.records[k] == s.records[k])
            && (forall k :: k in t.order <==> k in t.records)
    decreases |s.order|
  {
    if |s.order| > max && Victim(s).text != "" && Victim(s) in s.order {
      WithoutKeepsDistinct(s.order, Victim(s));
      WithoutIsOneShorter(s.order, Victim(s));
      EvictStopsAtBound(Drop(s, Victim(s)), max);
    }
  }

  lemma InsertedIsWritten(s: Store, max: nat, k: Key, r: Rec, log: seq<Event>)
    requires Coherent(s)
    ensures Wrote(s, Evict(Insert(s, k, r).(log := log), max), max, k, r)
  {
    EvictStopsAtBound(Insert(s, k, r).(log := log), max);
  }

  /** Each operation that writes a record writes its own verdict or state. */
  lemma PerformWrites(s: Store, max: nat, a: Act)
    requires Coherent(s)
    ensures var t := Perform(s, max, a);
            match a
            case DoBegin(k, state, now) => k.text != "" && k !in s.records ==> Wrote(s, t, max, k, Rec(state, now))
            case DoFinish(k, ok, now) => Wrote(s, t, max, k, Rec(if ok then Completed else Failed, now))
            case DoMirror(k, state, now) => k.text != "" ==> Wrote(s, t, max, k, Rec(state, now))
            case DoClear => t.order == [] && t.records == map[]
  {
    match a
    case DoBegin(k, state, now) => InsertedIsWritten(s, max, k, Rec(state, now), s.log + [Fresh(k)]);
    case DoFinish(k, ok, now) => InsertedIsWritten(s, max, k, Rec(if ok then Completed else Failed, now), s.log);
    case DoMirror(k, state, now) => InsertedIsWritten(s, max, k, Rec(state, now), s.log);
    case DoClear =>
  }

  lemma {:induction false} WithoutIsOneShorter(order: seq<Key>, k: Key)
    requires Distinct(order) && k in order
    ensures |Without(order, k)| == |order| - 1
  {
    if order[0] == k {
      WithoutAbsent(order[1..], k);
    } else {
      assert order == [order[0]] + order[1..];
      WithoutIsOneShorter(order[1..], k);
    }
  }

  /** Removal leaves the rest in its order. */
  lemma {:induction false} WithoutSplits(a: seq<Key>, b: seq<Key>, k: Key)
    ensures Without(a + b, k) == Without(a, k) + Without(b, k)
  {
    if a == [] {
      assert a + b == b;
    } else {
      assert (a + b)[0] == a[0] && (a + b)[1..] == a[1..] + b;
      WithoutSplits(a[1..], b, k);
      var first := if a[0] == k then [] else [a[0]];
      assert first + (Without(a[1..], k) + Without(b, k)) == first + Without(a[1..], k) + Without(b, k);
    }
  }

  lemma WithoutAbsent(order: seq<Key>, k: Key)
    requires k !in order
    ensures Without(order, k) == order
  {
    if order != [] {
      WithoutAbsent(order[1..], k);
    }
  }

  lemma InsertKeepsSound(s: Store, k: Key, r: Rec)
    requires Sound(s)
    ensures Sound(Insert(s, k, r))
  {
  }

  lemma BeginKeepsSound(s: Store, k: Key, r: Rec)
    requires Sound(s) && k !in s.records
    ensures Sound(Insert(s, k, r).(log := s.log + [Fresh(k)]))
  {
    var t := Insert(s, k, r).(log := s.log + [Fresh(k)]);
    LogKeepsWinners(s.log, Fresh(k));
    forall i | 0 <= i < |t.log| && t.log[i].Fresh? && !UndoneAfter(t.log, i, t.log[i].key)
      ensures t.log[i].key in t.records
    {
      if i < |s.log| {
        UndoneStays(s.log, Fresh(k), i, s.log[i].key);
      }
    }
  }

  lemma ClearKeepsSound(s: Store)
    requires Sound(s)
    ensures Sound(Store([], map[], s.log + [Wiped]))
  {
    LogKeepsWinners(s.log, Wiped);
    forall i | 0 <= i < |s.log| && s.log[i].Fresh?
      ensures UndoneAfter(s.log + [Wiped], i, s.log[i].key)
    {
      UndoneStays(s.log, Wiped, i, s.log[i].key);
    }
  }

  lemma PerformKeepsSound(s: Store, max: nat, a: Act)
    requires Sound(s) && max > 0 && Bounded(s, max)
    ensures Sound(Perform(s, max, a)) && Bounded(Perform(s, max, a), max)
  {
    match a
    case DoBegin(k, state, now) =>
      if k.text != "" && k !in s.records {
        BeginKeepsSound(s, k, Rec(state, now));
        EvictKeepsSound(Insert(s, k, Rec(state, now)).(log := s.log + [Fresh(k)]), max);
      }
    case DoFinish(k, ok, now) =>
      InsertKeepsSound(s, k, Rec(if ok then Completed else Failed, now));
      EvictKeepsSound(Insert(s, k, Rec(if ok then Completed else Failed, now)), max);
    case DoMirror(k, state, now) =>
      InsertKeepsSound(s, k, Rec(state, now));
      EvictKeepsSound(Insert(s, k, Rec(state, now)), max);
    case DoClear => ClearKeepsSound(s);
  }

  /** From any restored store, after any sequence of operations: between two
      fresh begins of one key lies an eviction or a clear of it. */
  lemma {:induction false} ExecuteKeepsOneWinner(s: Store, max: nat, acts: seq<Act>)
    requires Coherent(s) && s.log == [] && |s.order| <= max && max > 0
    ensures Sound(Execute(s, max, acts)) && Bounded(Execute(s, max, acts), max)
  {
    if acts != [] {
      ExecuteKeepsOneWinner(s, max, acts[..|acts| - 1]);
      PerformKeepsSound(Execute(s, max, acts[..|acts| - 1]), max, acts[|acts| - 1]);
    }
  }

  predicate Names(a: Act) {
    a.DoFinish? ==> a.key.text != ""
  }

  lemma {:induction false} EvictAddsNoKeys(s: Store, max: nat)
    ensures forall k :: k in Evict(s, max).records ==> k in s.records
    decreases |s.order|
  {
    if |s.order| > max && s.order != [] && Victim(s).text != "" && Victim(s) in s.order {
      EvictAddsNoKeys(Drop(s, Victim(s)), max);
    }
  }

  lemma NoEmptyKeyAppears(s: Store, max: nat, a: Act)
    requires Name("") !in s.records && Names(a)
    ensures Name("") !in Perform(s, max, a).records
  {
    match a
    case DoBegin(k, state, now) => EvictAddsNoKeys(Insert(s, k, Rec(state, now)).(log := s.log + [Fresh(k)]), max);
    case DoFinish(k, ok, now) => EvictAddsNoKeys(Insert(s, k, Rec(if ok then Completed else Failed, now)), max);
    case DoMirror(k, state, now) => EvictAddsNoKeys(Insert(s, k, Rec(state, now)), max);
    case DoClear =>
  }

  lemma {:induction false} NoEmptyKeyEver(s: Store, max: nat, acts: seq<Act>)
    requires Name("") !in s.records && forall i :: 0 <= i < |acts| ==> Names(acts[i])
    ensures Name("") !in Execute(s, max, acts).records
  {
    if acts != [] {
      NoEmptyKeyEver(s, max, acts[..|acts| - 1]);
      NoEmptyKeyAppears(Execute(s, max, acts[..|acts| - 1]), max, acts[|acts| - 1]);
    }
  }

  /** When no operation finishes an empty key, the store never holds more than
      `max` records. */
  lemma SizeBounded(s: Store, max: nat, acts: seq<Act>)
    requires Coherent(s) && s.log == [] && |s.order| <= max && max > 0 && Name("") !in s.records
    requires forall i :: 0 <= i < |acts| ==> Names(acts[i])
    ensures |Execute(s, max, acts).order| <= max
  {
    ExecuteKeepsOneWinner(s, max, acts);
    NoEmptyKeyEver(s, max, acts);
    var t := Execute(s, max, acts);
    if t.order != [] {
      assert t.order[0] in t.order && t.order[0] == Name(t.order[0].text);
    }
  }

  // ---------- exactly when the bound holds ----------

  /** Whether an operation adds a record, and the store once it has. */
  predicate Adds(s: Store, a: Act) {
    !a.DoClear? && a.key !in s.records && (a.DoFinish? || a.key.text != "")
  }

  function Added(s: Store, a: Act): Store
    requires !a.DoClear?
  {
    match a
    case DoBegin(k, state, now) => Insert(s, k, Rec(state, now)).(log := s.log + [Fresh(k)])
    case DoFinish(k, ok, now) => Insert(s, k, Rec(if ok then Completed else Failed, now))
    case DoMirror(k, state, now) => Insert(s, k, Rec(state, now))
  }

  /** The store is full, and with the new record eviction is jammed. */
  predicate Overfills(s: Store, max: nat, a: Act) {
    Adds(s, a) && |s.order| == max && Jammed(Added(s, a))
  }

  lemma EvictBoundedIff(s: Store, max: nat)
    requires Coherent(s) && |s.order| <= max + 1
    ensures |Evict(s, max).order| <= max <==> |s.order| <= max || !Jammed(s)
  {
    if |s.order| > max {
      NoVictimIff(s);
      UnfinishedEvictedOnlyAsLastResort(s);
    }
  }

  /** An operation on a store within the bound stays within it exactly when it
      does not overfill the store. */
  lemma OperationBoundedIff(s: Store, max: nat, a: Act)
    requires Coherent(s) && |s.order| <= max
    ensures |Perform(s, max, a).order| <= max <==> !Overfills(s, max, a)
  {
    match a
    case DoBegin(k, _, _) =>
      if Adds(s, a) {
        EvictBoundedIff(Added(s, a), max);
      }
    case DoFinish(_, _, _) => EvictBoundedIff(Added(s, a), max);
    case DoMirror(k, _, _) =>
      if k.text != "" {
        EvictBoundedIff(Added(s, a), max);
      }
    case DoClear =>
  }

  ghost predicate StaysBounded(s: Store, max: nat, acts: seq<Act>) {
    forall n: nat :: n <= |acts| ==> |Execute(s, max, acts[..n]).order| <= max
  }

  ghost predicate NeverOverfills(s: Store, max: nat, acts: seq<Act>) {
    forall n: nat :: n < |acts| ==> !Overfills(Execute(s, max, acts[..n]), max, acts[n])
  }

  lemma PrefixStep(s: Store, max: nat, acts: seq<Act>, n: nat)
    requires n < |acts|
    ensures Execute(s, max, acts[..n + 1]) == Perform(Execute(s, max, acts[..n]), max, acts[n])
  {
    assert acts[..n + 1][..n] == acts[..n];
  }

  lemma {:induction false} BoundedUpTo(s: Store, max: nat, acts: seq<Act>, n: nat)
    requires Coherent(s) && s.log == [] && |s.order| <= max && max > 0 && n <= |acts| && NeverOverfills(s, max, acts)
    ensures |Execute(s, max, acts[..n]).order| <= max
  {
    if n > 0 {
      BoundedUpTo(s, max, acts, n - 1);
      ExecuteKeepsOneWinner(s, max, acts[..n - 1]);
      OperationBoundedIff(Execute(s, max, acts[..n - 1]), max, acts[n - 1]);
      PrefixStep(s, max, acts, n - 1);
    }
  }

  /** Over a whole history the store never holds more than `max` records exactly
      when no operation overfills it. */
  lemma SizeBoundedIff(s: Store, max: nat, acts: seq<Act>)
    requires Coherent(s) && s.log == [] && |s.order| <= max && max > 0
    ensures StaysBounded(s, max, acts) <==> NeverOverfills(s, max, acts)
  {
    if NeverOverfills(s, max, acts) {
      forall n: nat | n <= |acts|
        ensures |Execute(s, max, acts[..n]).order| <= max
      {
        BoundedUpTo(s, max, acts, n);
      }
    }
    if StaysBounded(s, max, acts) {
      forall n: nat | n < |acts|
        ensures !Overfills(Execute(s, max, acts[..n]), max, acts[n])
      {
        ExecuteKeepsOneWinner(s, max, acts[..n]);
        OperationBoundedIff(Execute(s, max, acts[..n]), max, acts[n]);
        PrefixStep(s, max, acts, n);
      }
    }
  }

  /** A finished record under the empty key, kept in first place, stops eviction. */
  lemma EmptyKeyExceedsBound(k: Key, log: seq<Event>)
    requires k.text != ""
    ensures var s := Store([Name("")], map[Name("") := Rec(Completed, 0)], log);
            |Perform(s, 1, DoBegin(k, Running, 1)).order| == 2
  {
    var s := Store([Name("")], map[Name("") := Rec(Completed, 0)], log);
    var t := Insert(s, k, Rec(Running, 1)).(log := log + [Fresh(k)]);
    assert OldestFinished([], t.records) == None;
    assert s.order[..0] == [];
    assert OldestFinished(s.order, t.records) == Some(Name(""));
    assert t.order[..1] == s.order && t.order[1] == k;
    assert OldestFinished(t.order, t.records) == OldestFinished(s.order, t.records);
  }

  // ---------- the object ----------

  class IdempotencyStore {
    const max: nat
    var order: seq<Key>
    var records: map<Key, Rec>
    ghost var log: seq<Event>

    ghost function State(): Store
      reads this
    {
      Store(order, records, log)
    }

    ghost predicate Valid()
      reads this
    {
      max > 0 && Sound(State()) && Bounded(State(), max)
    }

    constructor (max: nat)
      requires max > 0
      ensures Valid() && State() == Store([], map[], []) && this.max == max
    {
      this.max := max;
      order, records, log := [], map[], [];
    }

    method FindOldestFinished() returns (k: Option<Key>)
      ensures k == OldestFinished(order, records)
    {
      k := None;
      for i := 0 to |order|
        invariant k == OldestFinished(order[..i], records)
      {
        assert order[..i + 1][..i] == order[..i];
        if order[i] in records && Finished(records[order[i]]) {
          if k.None? || k.value !in records || records[order[i]].updatedAt < records[k.value].updatedAt {
            k := Some(order[i]);
          }
        }
      }
      assert order[..|order|] == order;
    }

    method EvictIfNeeded()
      modifies this
      ensures State() == Evict(old(State()), max)
    {
      ghost var s := State();
      while |order| > max
        invariant Evict(State(), max) == Evict(s, max)
        decreases |order|
      {
        var oldest := FindOldestFinished();
        var k := if oldest.Some? && oldest.value.text != "" then oldest.value else order[0];
        if k.text == "" || k !in order {
          break;
        }
        order := Without(order, k);
        records := records - {k};
        log := log + [Evicted(k)];
      }
    }

    /** True for the one caller that may execute; None for an empty key. */
    method BeginOnce(key: Key, state: State, now: int) returns (won: Option<bool>)
      requires Valid()
      modifies this
      ensures Valid() && State() == Perform(old(State()), max, DoBegin(key, state, now))
      ensures won.None? <==> key.text == ""
      ensures won.Some? ==> (won.value <==> key !in old(records))
      ensures won != Some(true) ==> records == old(records) && order == old(order)
      ensures won == Some(true) ==> Wrote(old(State()), State(), max, key, Rec(state, now))
    {
      PerformKeepsSound(State(), max, DoBegin(key, state, now));
      PerformWrites(State(), max, DoBegin(key, state, now));
      if key.text == "" {
        return None;
      }
      if key in records {
        return Some(false);
      }
      order := order + [key];
      records := records[key := Rec(state, now)];
      log := log + [Fresh(key)];
      EvictIfNeeded();
      won := Some(true);
    }

    method FinishWith(key: Key, ok: bool, now: int)
      requires Valid()
      modifies this
      ensures Valid() && State() == Perform(old(State()), max, DoFinish(key, ok, now))
      ensures Wrote(old(State()), State(), max, key, Rec(if ok then Completed else Failed, now))
    {
      PerformKeepsSound(State(), max, DoFinish(key, ok, now));
      PerformWrites(State(), max, DoFinish(key, ok, now));
      if key !in records {
        order := order + [key];
      }
      records := records[key := Rec(if ok then Completed else Failed, now)];
      EvictIfNeeded();
    }

    method Clear()
      requires Valid()
      modifies this
      ensures Valid() && State() == Perform(old(State()), max, DoClear)
    {
      PerformKeepsSound(State(), max, DoClear);
      order, records := [], map[];
      log := log + [Wiped];
    }
  }

  // ---------- the shared backend ----------

  /** One key of the shared store: its value and when it expires. */
  datatype Cell = Cell(state: State, expires: int)

  /** `underway` are completions and failures that have read and not yet written. */
  datatype Shared = Shared(cell: Option<Cell>, clock: int, underway: multiset<State>, wins: seq<int>)

  datatype SharedAct =
    | SetIfAbsent(state: State, now: int)  // a begin, by any instance
    | ReadFor(verdict: State, now: int)    // the first half of a complete or fail
    | WriteBack(verdict: State, now: int)  // the second half

  predicate Live(c: Option<Cell>, now: int) {
    c.Some? && now < c.value.expires
  }

  function Advance(s: Shared, ttl: nat, a: SharedAct): Shared {
    match a
    case SetIfAbsent(state, now) =>
      if Live(s.cell, now) then s.(clock := now) else s.(cell := Some(Cell(state, now + ttl)), clock := now, wins := s.wins + [now])
    case ReadFor(verdict, now) => s.(underway := s.underway + multiset{verdict}, clock := now)
    case WriteBack(verdict, now) =>
      if verdict !in s.underway then s.(clock := now)
      else s.(cell := Some(Cell(verdict, now + ttl)), underway := s.underway - multiset{verdict}, clock := now)
  }

  predicate Verdict(state: State) {
    state == Completed || state == Failed
  }

  predicate ClockMoves(s: Shared, a: SharedAct) {
    a.now >= s.clock && (a.ReadFor? ==> Verdict(a.verdict))
  }

  function Interleave(ttl: nat, acts: seq<SharedAct>): Shared {
    if acts == [] then Shared(None, 0, multiset{}, [])
    else Advance(Interleave(ttl, acts[..|acts| - 1]), ttl, acts[|acts| - 1])
  }

  ghost predicate ClockMovesThroughout(ttl: nat, acts: seq<SharedAct>) {
    acts != [] ==>
      ClockMovesThroughout(ttl, acts[..|acts| - 1]) && ClockMoves(Interleave(ttl, acts[..|acts| - 1]), acts[|acts| - 1])
  }

  ghost predicate SharedSound(s: Shared, ttl: nat) {
    && (s.wins != [] ==> s.cell.Some? && s.wins[|s.wins| - 1] <= s.clock && s.cell.value.expires >= s.wins[|s.wins| - 1] + ttl)
    && (s.cell.Some? ==> s.cell.value.expires <= s.clock + ttl)
    && (forall i, j :: 0 <= i < j < |s.wins| ==> s.wins[j] >= s.wins[i] + ttl)
    && (forall v :: v in s.underway ==> Verdict(v))
  }

  lemma AdvanceKeepsSound(s: Shared, ttl: nat, a: SharedAct)
    requires SharedSound(s, ttl) && ClockMoves(s, a)
    ensures SharedSound(Advance(s, ttl, a), ttl)
  {
    var t := Advance(s, ttl, a);
    forall i, j | 0 <= i < j < |t.wins|
      ensures t.wins[j] >= t.wins[i] + ttl
    {
      if j == |s.wins| {
        var last := s.wins[|s.wins| - 1];
        assert t.wins[j] >= last + ttl;
        assert i < |s.wins| - 1 ==> last >= s.wins[i] + ttl;
      }
    }
  }

  /** However begins, and the separate reads and writes of completions and
      failures, interleave across instances, two winners are at least one
      time-to-live apart. */
  lemma {:induction false} WinnersAreApart(ttl: nat, acts: seq<SharedAct>)
    requires ClockMovesThroughout(ttl, acts)
    ensures SharedSound(Interleave(ttl, acts), ttl)
    ensures var w := Interleave(ttl, acts).wins; forall i, j :: 0 <= i < j < |w| ==> w[j] >= w[i] + ttl
  {
    if acts != [] {
      WinnersAreApart(ttl, acts[..|acts| - 1]);
      AdvanceKeepsSound(Interleave(ttl, acts[..|acts| - 1]), ttl, acts[|acts| - 1]);
    }
  }

  /** The act writes this cell: a winning begin, or the second half of a completion
      or failure that had read. */
  predicate Writes(s: Shared, ttl: nat, a: SharedAct, c: Cell) {
    && c.expires == a.now + ttl
    && match a
       case SetIfAbsent(state, now) => c.state == state && !Live(s.cell, now)
       case WriteBack(verdict, _) => c.state == verdict && verdict in s.underway
       case ReadFor(_, _) => false
  }

  lemma CellIsKeptOrWritten(s: Shared, ttl: nat, a: SharedAct)
    ensures var t := Advance(s, ttl, a);
            || (t.cell == s.cell && forall c :: !Writes(s, ttl, a, c))
            || (t.cell.Some? && Writes(s, ttl, a, t.cell.value))
  {
    if a.SetIfAbsent? && !Live(s.cell, a.now) {
      assert Writes(s, ttl, a, Cell(a.state, a.now + ttl));
    }
  }

  ghost predicate WrittenBy(ttl: nat, acts: seq<SharedAct>, j: int, c: Cell) {
    0 <= j < |acts| && Writes(Interleave(ttl, acts[..j]), ttl, acts[j], c)
  }

  ghost predicate LastWrittenBy(ttl: nat, acts: seq<SharedAct>, j: int, c: Cell) {
    WrittenBy(ttl, acts, j, c) && forall m, d :: j < m < |acts| ==> !WrittenBy(ttl, acts, m, d)
  }

  lemma PrefixWritten(ttl: nat, acts: seq<SharedAct>, n: nat, j: int, c: Cell)
    requires 0 <= j < n <= |acts|
    ensures WrittenBy(ttl, acts, j, c) <==> WrittenBy(ttl, acts[..n], j, c)
  {
    assert acts[..n][..j] == acts[..j];
  }

  lemma LastWriteStays(ttl: nat, acts: seq<SharedAct>, n: nat, j: int, c: Cell)
    requires |acts| == n + 1 && LastWrittenBy(ttl, acts[..n], j, c) && forall d :: !WrittenBy(ttl, acts, n, d)
    ensures LastWrittenBy(ttl, acts, j, c)
  {
    PrefixWritten(ttl, acts, n, j, c);
    forall m, d | j < m < |acts|
      ensures !WrittenBy(ttl, acts, m, d)
    {
      if m < n {
        PrefixWritten(ttl, acts, n, m, d);
      }
    }
  }

  lemma NextIsLastWritten(ttl: nat, acts: seq<SharedAct>, n: nat)
    requires |acts| == n + 1
    requires var cell := Interleave(ttl, acts[..n]).cell; cell.Some? ==> exists j :: LastWrittenBy(ttl, acts[..n], j, cell.value)
    ensures var cell := Advance(Interleave(ttl, acts[..n]), ttl, acts[n]).cell; cell.Some? ==> exists j :: LastWrittenBy(ttl, acts, j, cell.value)
  {
    var s := Interleave(ttl, acts[..n]);
    CellIsKeptOrWritten(s, ttl, acts[n]);
    var cell := Advance(s, ttl, acts[n]).cell;
    if cell.Some? {
      if Writes(s, ttl, acts[n], cell.value) {
        assert LastWrittenBy(ttl, acts, n, cell.value);
      } else {
        var j :| LastWrittenBy(ttl, acts[..n], j, cell.value);
        LastWriteStays(ttl, acts, n, j, cell.value);
      }
    }
  }

  /** However instances interleave, what the shared store holds of a key is what
      the last act that could write it wrote: the verdict of the last completion or
      failure since the last winner, if any, else the winner's own state. */
  lemma {:induction false} CellIsLastWritten(ttl: nat, acts: seq<SharedAct>)
    ensures var cell := Interleave(ttl, acts).cell; cell.Some? ==> exists j :: LastWrittenBy(ttl, acts, j, cell.value)
  {
    if acts != [] {
      var n := |acts| - 1;
      CellIsLastWritten(ttl, acts[..n]);
      NextIsLastWritten(ttl, acts, n);
    }
  }

  predicate ExpiresBy(c: Cell, cell: Option<Cell>) {
    cell.Some? && c.expires <= cell.value.expires
  }

  lemma CellExpiresLater(s: Shared, ttl: nat, a: SharedAct, c: Cell)
    requires SharedSound(s, ttl) && ClockMoves(s, a) && (ExpiresBy(c, s.cell) || Writes(s, ttl, a, c))
    ensures ExpiresBy(c, Advance(s, ttl, a).cell)
  {
  }

  lemma LastStep(ttl: nat, acts: seq<SharedAct>, n: nat)
    requires ClockMovesThroughout(ttl, acts) && |acts| == n + 1
    ensures ClockMovesThroughout(ttl, acts[..n]) && ClockMoves(Interleave(ttl, acts[..n]), acts[n])
    ensures Interleave(ttl, acts) == Advance(Interleave(ttl, acts[..n]), ttl, acts[n])
  {
  }

  lemma NextExpiresLater(ttl: nat, acts: seq<SharedAct>, n: nat, c: Cell)
    requires ClockMovesThroughout(ttl, acts) && |acts| == n + 1
    requires var s := Interleave(ttl, acts[..n]); ExpiresBy(c, s.cell) || Writes(s, ttl, acts[n], c)
    ensures ExpiresBy(c, Interleave(ttl, acts).cell)
  {
    LastStep(ttl, acts, n);
    WinnersAreApart(ttl, acts[..n]);
    CellExpiresLater(Interleave(ttl, acts[..n]), ttl, acts[n], c);
  }

  lemma {:induction false} WritesExpireFirst(ttl: nat, acts: seq<SharedAct>, j: int, c: Cell)
    requires ClockMovesThroughout(ttl, acts) && WrittenBy(ttl, acts, j, c)
    ensures ExpiresBy(c, Interleave(ttl, acts).cell)
    decreases |acts|
  {
    var n := |acts| - 1;
    assert ExpiresBy(c, Interleave(ttl, acts[..n]).cell) || Writes(Interleave(ttl, acts[..n]), ttl, acts[n], c) by {
      if j < n {
        LastStep(ttl, acts, n);
        PrefixWritten(ttl, acts, n, j, c);
        WritesExpireFirst(ttl, acts[..n], j, c);
      }
    }
    NextExpiresLater(ttl, acts, n, c);
  }

  /** Over every interleaving, a begin wins exactly when everything ever written for
      its key has expired: its own instant is then the newest win. */
  lemma BeginWinsIff(ttl: nat, acts: seq<SharedAct>, state: State, now: int)
    requires ClockMovesThroughout(ttl, acts)
    ensures var s := Interleave(ttl, acts);
            var t := Advance(s, ttl, SetIfAbsent(state, now));
            && t.wins == (if t.cell == s.cell && Live(s.cell, now) then s.wins else s.wins + [now])
            && (t.wins != s.wins <==> forall j, c :: WrittenBy(ttl, acts, j, c) ==> now >= c.expires)
  {
    var s := Interleave(ttl, acts);
    CellIsLastWritten(ttl, acts);
    if s.cell.Some? && now >= s.cell.value.expires {
      forall j, c | WrittenBy(ttl, acts, j, c)
        ensures now >= c.expires
      {
        WritesExpireFirst(ttl, acts, j, c);
      }
    }
    if s.cell.None? {
      forall j, c | WrittenBy(ttl, acts, j, c)
        ensures false
      {
        WritesExpireFirst(ttl, acts, j, c);
      }
    }
  }

  /** How many completions or failures of a verdict have read and not yet written. */
  function Unfinished(acts: seq<SharedAct>, verdict: State): nat {
    if acts == [] then 0
    else
      var before, last := Unfinished(acts[..|acts| - 1], verdict), acts[|acts| - 1];
      if last.ReadFor? && last.verdict == verdict then before + 1
      else if last.WriteBack? && last.verdict == verdict && before > 0 then before - 1
      else before
  }

  lemma UnderwayStep(s: Shared, ttl: nat, a: SharedAct, verdict: State)
    ensures Advance(s, ttl, a).clock == a.now
    ensures Advance(s, ttl, a).underway[verdict]
            == if a.ReadFor? && a.verdict == verdict then s.underway[verdict] + 1
               else if a.WriteBack? && a.verdict == verdict && s.underway[verdict] > 0 then s.underway[verdict] - 1
               else s.underway[verdict]
  {
  }

  /** A completion or failure writes exactly if it has read before. */
  lemma {:induction false} UnderwayIsUnfinished(ttl: nat, acts: seq<SharedAct>, verdict: State)
    ensures Interleave(ttl, acts).underway[verdict] == Unfinished(acts, verdict)
    ensures acts != [] ==> Interleave(ttl, acts).clock == acts[|acts| - 1].now
  {
    if acts != [] {
      UnderwayIsUnfinished(ttl, acts[..|acts| - 1], verdict);
      UnderwayStep(Interleave(ttl, acts[..|acts| - 1]), ttl, acts[|acts| - 1], verdict);
    }
  }

  /** A finished operation stays finished until its record expires, and no
      late write of another instance shortens that. */
  lemma FinishedStaysFinished(s: Shared, ttl: nat, a: SharedAct)
    requires SharedSound(s, ttl) && ClockMoves(s, a) && Live(s.cell, a.now) && Verdict(s.cell.value.state)
    ensures var t := Advance(s, ttl, a);
            t.cell.Some? && Verdict(t.cell.value.state) && t.cell.value.expires >= s.cell.value.expires && t.wins == s.wins
  {
  }
}
