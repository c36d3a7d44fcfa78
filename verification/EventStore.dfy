// The durable event log of a run: merge, sort by sequence, keep the newest.
module EventStore {
  import opened Wrappers
  import opened Json
  import opened Serialization

  const MAX_EVENTS_PER_RUN := 500

  datatype Envelope = Envelope(number: int, body: Json)

  /** All numbers of the list are greater than n. */
  ghost predicate Above(l: seq<Envelope>, n: int) {
    forall x :: x in l ==> x.number > n
  }

  ghost predicate Ascending(l: seq<Envelope>) {
    l != [] ==> Above(l[1..], l[0].number) && Ascending(l[1..])
  }

  function Newest(l: seq<Envelope>, n: nat): (r: seq<Envelope>)
    ensures |r| == if |l| <= n then |l| else n
  {
    if |l| <= n then l else l[|l| - n..]
  }

  // ---------- the merged log as a sorted list ----------

  /** Puts an envelope in its place, over any with its number. */
  function Put(l: seq<Envelope>, e: Envelope): seq<Envelope> {
    if l == [] || e.number < l[0].number then [e] + l
    else if e.number == l[0].number then [e] + l[1..]
    else [l[0]] + Put(l[1..], e)
  }

  /** Puts an envelope in its place unless its number is taken. */
  function Offer(l: seq<Envelope>, e: Envelope): seq<Envelope> {
    if l == [] || e.number < l[0].number then [e] + l
    else if e.number == l[0].number then l
    else [l[0]] + Offer(l[1..], e)
  }

  function PutAll(l: seq<Envelope>, s: seq<Envelope>): seq<Envelope> {
    if s == [] then l else Put(PutAll(l, s[..|s| - 1]), s[|s| - 1])
  }

  function OfferAll(l: seq<Envelope>, s: seq<Envelope>): seq<Envelope> {
    if s == [] then l else Offer(OfferAll(l, s[..|s| - 1]), s[|s| - 1])
  }

  /** Among stored envelopes the last with a number wins, among new ones the
      first, and stored ones win over new ones. */
  function Append(stored: seq<Envelope>, events: seq<Envelope>, max: nat): seq<Envelope> {
    Newest(OfferAll(PutAll([], stored), events), max)
  }

  predicate Taken(l: seq<Envelope>, n: int) {
    exists x :: x in l && x.number == n
  }

  lemma Decompose(l: seq<Envelope>)
    requires l != []
    ensures l == [l[0]] + l[1..]
  {
  }

  lemma Prepend(x: Envelope, l: seq<Envelope>)
    requires Ascending(l) && Above(l, x.number)
    ensures Ascending([x] + l)
  {
    assert ([x] + l)[1..] == l;
  }

  lemma {:induction false} PutKeeps(l: seq<Envelope>, e: Envelope)
    requires Ascending(l)
    ensures Ascending(Put(l, e))
    ensures forall x :: x in Put(l, e) <==> x == e || (x in l && x.number != e.number)
  {
    if l == [] {
      Prepend(e, l);
    } else {
      Decompose(l);
      if e.number < l[0].number {
        Prepend(e, l);
      } else if e.number == l[0].number {
        Prepend(e, l[1..]);
      } else {
        PutKeeps(l[1..], e);
        Prepend(l[0], Put(l[1..], e));
      }
    }
  }

  lemma {:induction false} OfferKeeps(l: seq<Envelope>, e: Envelope)
    requires Ascending(l)
    ensures Ascending(Offer(l, e)) && |l| <= |Offer(l, e)|
    ensures forall x :: x in Offer(l, e) <==> x in l || (x == e && !Taken(l, e.number))
  {
    if l == [] {
      Prepend(e, l);
    } else {
      Decompose(l);
      if e.number < l[0].number {
        Prepend(e, l);
      } else if e.number > l[0].number {
        OfferKeeps(l[1..], e);
        Prepend(l[0], Offer(l[1..], e));
        assert Taken(l, e.number) <==> Taken(l[1..], e.number);
      }
    }
  }

  lemma {:induction false} PutAllAscends(l: seq<Envelope>, s: seq<Envelope>)
    requires Ascending(l)
    ensures Ascending(PutAll(l, s))
  {
    if s != [] {
      PutAllAscends(l, s[..|s| - 1]);
      PutKeeps(PutAll(l, s[..|s| - 1]), s[|s| - 1]);
    }
  }

  lemma {:induction false} OfferAllAscends(l: seq<Envelope>, s: seq<Envelope>)
    requires Ascending(l)
    ensures Ascending(OfferAll(l, s))
  {
    if s != [] {
      OfferAllAscends(l, s[..|s| - 1]);
      OfferKeeps(OfferAll(l, s[..|s| - 1]), s[|s| - 1]);
    }
  }

  /** An ascending list is determined by its members. */
  lemma {:induction false} AscendingIsUnique(a: seq<Envelope>, b: seq<Envelope>)
    requires Ascending(a) && Ascending(b) && forall x :: x in a <==> x in b
    ensures a == b
  {
    assert a != [] ==> a[0] in b;
    assert b != [] ==> b[0] in a;
    if a != [] {
      Decompose(a);
      Decompose(b);
      assert a[0] == b[0];
      forall x
        ensures x in a[1..] <==> x in b[1..]
      {
        assert x in a <==> x in b;
      }
      AscendingIsUnique(a[1..], b[1..]);
    }
  }

  lemma {:induction false} DropAscends(l: seq<Envelope>, n: nat)
    requires Ascending(l) && n <= |l|
    ensures Ascending(l[n..])
    ensures n > 0 ==> Above(l[n..], l[0].number)
  {
    if n > 0 {
      DropAscends(l[1..], n - 1);
      assert l[1..][n - 1..] == l[n..];
      assert forall x :: x in l[n..] ==> x in l[1..];
    }
  }

  // ---------- truncating early ----------

  lemma NewestOfTail(x: Envelope, l: seq<Envelope>, max: nat)
    requires |l| >= max
    ensures Newest([x] + l, max) == Newest(l, max)
  {
  }

  /** Dropping old envelopes before an offer does not change what is kept after it. */
  lemma {:induction false} OfferThenKeep(l: seq<Envelope>, e: Envelope, max: nat)
    requires Ascending(l)
    ensures Newest(Offer(l, e), max) == Newest(Offer(Newest(l, max), e), max)
  {
    if |l| > max {
      Decompose(l);
      OfferKeeps(l[1..], e);
      NewestOfTail(l[0], l[1..], max);
      if e.number <= l[0].number {
        var k := Newest(l, max);
        DropAscends(l, |l| - max);
        assert k != [] ==> k[0] in k;
        assert Offer(k, e) == [e] + k;
        NewestOfTail(e, k, max);
        NewestOfTail(e, l, max);
      } else {
        OfferThenKeep(l[1..], e, max);
        NewestOfTail(l[0], Offer(l[1..], e), max);
      }
    }
  }

  lemma NewestAscends(l: seq<Envelope>, max: nat)
    requires Ascending(l)
    ensures Ascending(Newest(l, max))
  {
    if |l| > max {
      DropAscends(l, |l| - max);
    }
  }

  lemma {:induction false} OfferAllThenKeep(l: seq<Envelope>, s: seq<Envelope>, max: nat)
    requires Ascending(l)
    ensures Newest(OfferAll(l, s), max) == Newest(OfferAll(Newest(l, max), s), max)
  {
    if s != [] {
      var earlier, e := s[..|s| - 1], s[|s| - 1];
      OfferAllThenKeep(l, earlier, max);
      OfferAllAscends(l, earlier);
      NewestAscends(l, max);
      OfferAllAscends(Newest(l, max), earlier);
      OfferThenKeep(OfferAll(l, earlier), e, max);
      OfferThenKeep(OfferAll(Newest(l, max), earlier), e, max);
    }
  }

  lemma {:induction false} OfferAllSplits(l: seq<Envelope>, a: seq<Envelope>, b: seq<Envelope>)
    ensures OfferAll(l, a + b) == OfferAll(OfferAll(l, a), b)
  {
    if b == [] {
      assert a + b == a;
    } else {
      OfferAllSplits(l, a, b[..|b| - 1]);
      assert (a + b)[..|a + b| - 1] == a + b[..|b| - 1];
    }
  }

  lemma {:induction false} MembersOfPutAll(s: seq<Envelope>, x: Envelope)
    ensures x in PutAll([], s) ==> x in s
  {
    if s != [] {
      var n := |s| - 1;
      MembersOfPutAll(s[..n], x);
      PutAllAscends([], s[..n]);
      PutKeeps(PutAll([], s[..n]), s[n]);
    }
  }

  lemma {:induction false} LastIsGreatest(l: seq<Envelope>, i: nat)
    requires Ascending(l) && i < |l| - 1
    ensures l[i].number < l[|l| - 1].number
  {
    Decompose(l);
    if i > 0 {
      LastIsGreatest(l[1..], i - 1);
    } else {
      assert l[|l| - 1] == l[1..][|l| - 2];
    }
  }

  lemma {:induction false} FrontAscends(l: seq<Envelope>)
    requires Ascending(l) && l != []
    ensures Ascending(l[..|l| - 1])
  {
    if |l| > 1 {
      FrontAscends(l[1..]);
      assert l[..|l| - 1] == [l[0]] + l[1..][..|l| - 2];
      Prepend(l[0], l[1..][..|l| - 2]);
    }
  }

  /** The greatest number goes to the end. */
  lemma {:induction false} PutLast(l: seq<Envelope>, e: Envelope)
    requires forall x :: x in l ==> x.number < e.number
    ensures Put(l, e) == l + [e]
  {
    if l != [] {
      Decompose(l);
      PutLast(l[1..], e);
    }
  }

  /** Rereading an ascending log puts it together as it was. */
  lemma {:induction false} PutAllRereads(l: seq<Envelope>)
    requires Ascending(l)
    ensures PutAll([], l) == l
  {
    if l != [] {
      var n := |l| - 1;
      FrontAscends(l);
      PutAllRereads(l[..n]);
      forall x | x in l[..n]
        ensures x.number < l[n].number
      {
        var i :| 0 <= i < n && l[..n][i] == x;
        LastIsGreatest(l, i);
      }
      PutLast(l[..n], l[n]);
      assert l == l[..n] + [l[n]];
    }
  }

  // ---------- the laws ----------

  /** Two appends are one append of both batches: truncating in between never
      changes the final log, first-writer-wins ties included. */
  lemma AppendComposes(stored: seq<Envelope>, a: seq<Envelope>, b: seq<Envelope>, max: nat)
    ensures Append(Append(stored, a, max), b, max) == Append(stored, a + b, max)
  {
    PutAllAscends([], stored);
    var l := OfferAll(PutAll([], stored), a);
    OfferAllAscends(PutAll([], stored), a);
    NewestAscends(l, max);
    PutAllRereads(Newest(l, max));
    OfferAllThenKeep(l, b, max);
    OfferAllSplits(PutAll([], stored), a, b);
  }

  lemma {:induction false} MembersStay(l: seq<Envelope>, s: seq<Envelope>, x: Envelope)
    requires Ascending(l) && x in l
    ensures x in OfferAll(l, s)
  {
    if s != [] {
      MembersStay(l, s[..|s| - 1], x);
      OfferAllAscends(l, s[..|s| - 1]);
      OfferKeeps(OfferAll(l, s[..|s| - 1]), s[|s| - 1]);
    }
  }

  lemma {:induction false} OfferedIsTaken(l: seq<Envelope>, s: seq<Envelope>, x: Envelope)
    requires Ascending(l) && x in s
    ensures Taken(OfferAll(l, s), x.number)
  {
    var n := |s| - 1;
    var before := OfferAll(l, s[..n]);
    OfferAllAscends(l, s[..n]);
    OfferKeeps(before, s[n]);
    assert s == s[..n] + [s[n]];
    if x in s[..n] {
      OfferedIsTaken(l, s[..n], x);
    }
  }

  lemma {:induction false} OfferAllTaken(l: seq<Envelope>, s: seq<Envelope>)
    requires Ascending(l) && forall x :: x in s ==> Taken(l, x.number)
    ensures OfferAll(l, s) == l
  {
    if s != [] {
      var n := |s| - 1;
      assert s == s[..n] + [s[n]];
      OfferAllTaken(l, s[..n]);
      OfferKeeps(l, s[n]);
      AscendingIsUnique(Offer(l, s[n]), l);
    }
  }

  /** Appending the same batch again changes nothing. */
  lemma AppendIsIdempotent(stored: seq<Envelope>, a: seq<Envelope>, max: nat)
    ensures Append(Append(stored, a, max), a, max) == Append(stored, a, max)
  {
    AppendComposes(stored, a, a, max);
    PutAllAscends([], stored);
    var l := PutAll([], stored);
    OfferAllSplits(l, a, a);
    OfferAllAscends(l, a);
    forall x | x in a
      ensures Taken(OfferAll(l, a), x.number)
    {
      OfferedIsTaken(l, a, x);
    }
    OfferAllTaken(OfferAll(l, a), a);
  }

  /** Envelopes are immutable: one number, one envelope. */
  ghost predicate Immutable(l: set<Envelope>) {
    forall x, y :: x in l && y in l && x.number == y.number ==> x == y
  }

  ghost function All(l: seq<Envelope>): set<Envelope> {
    set x | x in l
  }

  lemma {:induction false} MembersOfOfferAll(l: seq<Envelope>, s: seq<Envelope>, x: Envelope)
    requires Ascending(l) && Immutable(All(l) + All(s))
    ensures x in OfferAll(l, s) <==> x in l || x in s
  {
    if s != [] {
      var n := |s| - 1;
      var before := OfferAll(l, s[..n]);
      OfferAllAscends(l, s[..n]);
      OfferKeeps(before, s[n]);
      assert s == s[..n] + [s[n]];
      assert All(l) + All(s[..n]) <= All(l) + All(s);
      MembersOfOfferAll(l, s[..n], x);
      if Taken(before, s[n].number) {
        var y :| y in before && y.number == s[n].number;
        MembersOfOfferAll(l, s[..n], y);
        assert y in All(l) + All(s) && s[n] in All(l) + All(s);
        assert y == s[n];
      }
    }
  }

  /** Two writers may append in either order. */
  lemma AppendsCommute(stored: seq<Envelope>, a: seq<Envelope>, b: seq<Envelope>, max: nat)
    requires Immutable(All(PutAll([], stored)) + All(a + b))
    ensures Append(Append(stored, a, max), b, max) == Append(Append(stored, b, max), a, max)
  {
    AppendComposes(stored, a, b, max);
    AppendComposes(stored, b, a, max);
    PutAllAscends([], stored);
    var l := PutAll([], stored);
    OfferAllAscends(l, a + b);
    OfferAllAscends(l, b + a);
    assert All(b + a) == All(a + b);
    forall x
      ensures x in OfferAll(l, a + b) <==> x in OfferAll(l, b + a)
    {
      MembersOfOfferAll(l, a + b, x);
      MembersOfOfferAll(l, b + a, x);
    }
    AscendingIsUnique(OfferAll(l, a + b), OfferAll(l, b + a));
  }

  // ---------- what an append holds ----------

  /** The last of the list with its number. */
  ghost predicate LastWith(s: seq<Envelope>, x: Envelope) {
    exists i :: 0 <= i < |s| && s[i] == x && forall j :: i < j < |s| ==> s[j].number != x.number
  }

  /** The first of the list with its number. */
  ghost predicate FirstWith(s: seq<Envelope>, x: Envelope) {
    exists i :: 0 <= i < |s| && s[i] == x && forall j :: 0 <= j < i ==> s[j].number != x.number
  }

  lemma LastWithGrows(s: seq<Envelope>, e: Envelope, x: Envelope)
    ensures LastWith(s + [e], x) <==> x == e || (LastWith(s, x) && x.number != e.number)
  {
    var t := s + [e];
    assert t[|s|] == e;
    if LastWith(t, x) && x != e {
      var i :| 0 <= i < |t| && t[i] == x && forall j :: i < j < |t| ==> t[j].number != x.number;
      assert s[i] == x && forall j :: i < j < |s| ==> s[j] == t[j];
    }
    if LastWith(s, x) && x.number != e.number {
      var i :| 0 <= i < |s| && s[i] == x && forall j :: i < j < |s| ==> s[j].number != x.number;
      assert t[i] == x;
    }
  }

  lemma FirstWithGrows(s: seq<Envelope>, e: Envelope, x: Envelope)
    ensures FirstWith(s + [e], x) <==> FirstWith(s, x) || (x == e && !Taken(s, e.number))
  {
    var t := s + [e];
    if FirstWith(s, x) {
      var i :| 0 <= i < |s| && s[i] == x && forall j :: 0 <= j < i ==> s[j].number != x.number;
      assert t[i] == x;
    }
    if x == e && !Taken(s, e.number) {
      assert t[|s|] == x;
      assert forall j :: 0 <= j < |s| ==> s[j] in s;
    }
    if FirstWith(t, x) {
      var i :| 0 <= i < |t| && t[i] == x && forall j :: 0 <= j < i ==> t[j].number != x.number;
      if i < |s| {
        assert s[i] == x && forall j :: 0 <= j < i ==> s[j] == t[j];
      } else {
        assert x == e && forall j :: 0 <= j < |s| ==> s[j] == t[j];
      }
    }
  }

  lemma {:induction false} PutAllHolds(s: seq<Envelope>, x: Envelope)
    ensures x in PutAll([], s) <==> LastWith(s, x)
  {
    if s != [] {
      var n := |s| - 1;
      assert s == s[..n] + [s[n]];
      PutAllHolds(s[..n], x);
      PutAllAscends([], s[..n]);
      PutKeeps(PutAll([], s[..n]), s[n]);
      LastWithGrows(s[..n], s[n], x);
    }
  }

  lemma {:induction false} OfferAllNumbers(l: seq<Envelope>, s: seq<Envelope>, number: int)
    requires Ascending(l)
    ensures Taken(OfferAll(l, s), number) <==> Taken(l, number) || Taken(s, number)
  {
    if s != [] {
      var n := |s| - 1;
      assert s == s[..n] + [s[n]];
      OfferAllNumbers(l, s[..n], number);
      OfferAllAscends(l, s[..n]);
      OfferNumbers(OfferAll(l, s[..n]), s[n], number);
      assert Taken(s, number) <==> Taken(s[..n], number) || s[n].number == number;
    }
  }

  lemma OfferNumbers(l: seq<Envelope>, e: Envelope, number: int)
    requires Ascending(l)
    ensures Taken(Offer(l, e), number) <==> Taken(l, number) || e.number == number
  {
    OfferKeeps(l, e);
    if Taken(l, number) {
      var x :| x in l && x.number == number;
      assert x in Offer(l, e);
    }
    if e.number == number && !Taken(l, number) {
      assert e in Offer(l, e);
    }
  }

  lemma {:induction false} OfferAllHolds(l: seq<Envelope>, s: seq<Envelope>, x: Envelope)
    requires Ascending(l)
    ensures x in OfferAll(l, s) <==> x in l || (FirstWith(s, x) && !Taken(l, x.number))
  {
    if s != [] {
      var n := |s| - 1;
      assert s == s[..n] + [s[n]];
      OfferAllHolds(l, s[..n], x);
      OfferAllAscends(l, s[..n]);
      OfferKeeps(OfferAll(l, s[..n]), s[n]);
      OfferAllNumbers(l, s[..n], s[n].number);
      FirstWithGrows(s[..n], s[n], x);
    }
  }

  /** What belongs in the log: of each number the last stored envelope, or else the
      first new one. */
  ghost predicate Belongs(stored: seq<Envelope>, events: seq<Envelope>, x: Envelope) {
    LastWith(stored, x) || (FirstWith(events, x) && !Taken(stored, x.number))
  }

  ghost predicate IsFull(stored: seq<Envelope>, events: seq<Envelope>, full: seq<Envelope>) {
    Ascending(full) && forall x :: x in full <==> Belongs(stored, events, x)
  }

  lemma {:induction false} StoredNumbers(s: seq<Envelope>, number: int)
    ensures Taken(PutAll([], s), number) <==> Taken(s, number)
  {
    if s != [] {
      var n := |s| - 1;
      assert s == s[..n] + [s[n]];
      StoredNumbers(s[..n], number);
      PutAllAscends([], s[..n]);
      PutNumbers(PutAll([], s[..n]), s[n], number);
      assert Taken(s, number) <==> Taken(s[..n], number) || s[n].number == number;
    }
  }

  lemma PutNumbers(l: seq<Envelope>, e: Envelope, number: int)
    requires Ascending(l)
    ensures Taken(Put(l, e), number) <==> Taken(l, number) || e.number == number
  {
    PutKeeps(l, e);
    assert e in Put(l, e);
    if Taken(l, number) && e.number != number {
      var x :| x in l && x.number == number;
      assert x in Put(l, e);
    }
  }

  /** An append leaves the newest of what belongs in the log, in order of number, as
      many as it may hold. */
  lemma AppendHolds(stored: seq<Envelope>, events: seq<Envelope>, max: nat)
    ensures exists full ::
              && IsFull(stored, events, full)
              && Append(stored, events, max) == if |full| <= max then full else full[|full| - max..]
  {
    var l := PutAll([], stored);
    var full := OfferAll(l, events);
    PutAllAscends([], stored);
    OfferAllAscends(l, events);
    forall x
      ensures x in full <==> Belongs(stored, events, x)
    {
      PutAllHolds(stored, x);
      OfferAllHolds(l, events, x);
      StoredNumbers(stored, x.number);
    }
    assert IsFull(stored, events, full);
  }

  // ---------- merging ----------

  /** The envelopes among what was read; anything else is skipped. */
  function Valid(raw: seq<Option<Envelope>>): seq<Envelope> {
    if raw == [] then []
    else Valid(raw[..|raw| - 1]) + if raw[|raw| - 1].Some? then [raw[|raw| - 1].value] else []
  }

  /** The merge map has exactly the envelopes of an ascending list. */
  ghost predicate Holds(merged: map<int, Envelope>, l: seq<Envelope>) {
    && (forall n :: n in merged ==> merged[n].number == n && merged[n] in l)
    && (forall x :: x in l ==> x.number in merged && merged[x.number] == x)
  }

  lemma HoldsTaken(merged: map<int, Envelope>, l: seq<Envelope>, n: int)
    requires Holds(merged, l)
    ensures Taken(l, n) <==> n in merged
  {
    if n in merged {
      assert merged[n] in l;
    }
  }

  ghost predicate Lists(keys: seq<int>, merged: map<int, Envelope>) {
    forall n :: n in keys <==> n in merged
  }

  /** The values of the map, taken in the order of its keys and sorted. */
  method SortedValues(keys: seq<int>, merged: map<int, Envelope>, ghost l: seq<Envelope>) returns (r: seq<Envelope>)
    requires Lists(keys, merged) && Ascending(l) && Holds(merged, l)
    ensures r == l
  {
    r := [];
    for i := 0 to |keys|
      invariant Ascending(r)
      invariant forall x :: x in r <==> x.number in keys[..i] && x.number in merged && merged[x.number] == x
    {
      assert keys[..i + 1] == keys[..i] + [keys[i]];
      var n: int := keys[i];
      assert n in keys;
      assert n in merged;
      PutKeeps(r, merged[n]);
      r := Put(r, merged[n]);
    }
    assert keys[..|keys|] == keys;
    AscendingIsUnique(r, l);
  }

  lemma ValidGrows(raw: seq<Option<Envelope>>, i: nat)
    requires i < |raw|
    ensures Valid(raw[..i + 1]) == if raw[i].Some? then Valid(raw[..i]) + [raw[i].value] else Valid(raw[..i])
  {
    assert raw[..i + 1][..i] == raw[..i];
  }

  lemma AllGrow(l: seq<Envelope>, s: seq<Envelope>, e: Envelope)
    ensures PutAll(l, s + [e]) == Put(PutAll(l, s), e)
    ensures OfferAll(l, s + [e]) == Offer(OfferAll(l, s), e)
  {
    assert (s + [e])[..|s|] == s;
  }

  lemma PutOver(merged: map<int, Envelope>, l: seq<Envelope>, e: Envelope)
    requires Ascending(l) && Holds(merged, l)
    ensures Ascending(Put(l, e)) && Holds(merged[e.number := e], Put(l, e))
  {
    PutKeeps(l, e);
  }

  method MergeStored(stored: seq<Option<Envelope>>) returns (keys: seq<int>, merged: map<int, Envelope>)
    ensures Lists(keys, merged) && Holds(merged, PutAll([], Valid(stored)))
  {
    keys, merged := [], map[];
    ghost var l: seq<Envelope> := [];
    for i := 0 to |stored|
      invariant l == PutAll([], Valid(stored[..i])) && Ascending(l) && Holds(merged, l) && Lists(keys, merged)
    {
      ValidGrows(stored, i);
      if stored[i].Some? {
        var e := stored[i].value;
        AllGrow([], Valid(stored[..i]), e);
        PutOver(merged, l, e);
        l := Put(l, e);
        if e.number !in merged {
          keys := keys + [e.number];
        }
        merged := merged[e.number := e];
      }
    }
    assert stored[..|stored|] == stored;
  }

  lemma OfferIfAbsent(merged: map<int, Envelope>, l: seq<Envelope>, e: Envelope)
    requires Ascending(l) && Holds(merged, l)
    ensures Ascending(Offer(l, e)) && Holds(if e.number in merged then merged else merged[e.number := e], Offer(l, e))
  {
    OfferKeeps(l, e);
    HoldsTaken(merged, l, e.number);
    assert e.number in merged ==> merged[e.number] in l;
  }

  method MergeNew(order: seq<int>, base: map<int, Envelope>, events: seq<Option<Envelope>>, ghost stored: seq<Envelope>)
    returns (keys: seq<int>, merged: map<int, Envelope>)
    requires Lists(order, base) && Ascending(stored) && Holds(base, stored)
    ensures Lists(keys, merged) && Holds(merged, OfferAll(stored, Valid(events)))
  {
    keys, merged := order, base;
    ghost var l := stored;
    for i := 0 to |events|
      invariant l == OfferAll(stored, Valid(events[..i])) && Ascending(l) && Holds(merged, l) && Lists(keys, merged)
    {
      ValidGrows(events, i);
      if events[i].Some? {
        var e := events[i].value;
        AllGrow(stored, Valid(events[..i]), e);
        OfferIfAbsent(merged, l, e);
        if e.number !in merged {
          keys := keys + [e.number];
          merged := merged[e.number := e];
        }
        l := Offer(l, e);
      }
    }
    assert events[..|events|] == events;
  }

  // ---------- writing within a byte limit ----------

  const LEAST_KEPT := 10

  /** The newer half of a log that is too large, but never fewer than ten. */
  function Halve(l: seq<Envelope>): Option<seq<Envelope>> {
    if |l| <= LEAST_KEPT then None else Some(Newest(l, if |l| / 2 > LEAST_KEPT then |l| / 2 else LEAST_KEPT))
  }

  function Save(l: seq<Envelope>, max: nat, maxBytes: nat, size: seq<Envelope> -> nat): Written<seq<Envelope>> {
    SerializeFrom(Newest(l, max), 0, ATTEMPTS, maxBytes, size, Halve)
  }

  /** The log on disk after an append: what was written, or else what was there. */
  function AppendSized(stored: seq<Envelope>, events: seq<Envelope>, max: nat, maxBytes: nat, size: seq<Envelope> -> nat): seq<Envelope> {
    var w := Save(Append(stored, events, max), max, maxBytes, size);
    if w.Fits? then w.value else stored
  }

  /** What is written is an end of the log with at least its newest ten. */
  lemma {:induction false} HalvingKeepsNewest(l: seq<Envelope>, pruned: nat, left: nat, maxBytes: nat, size: seq<Envelope> -> nat)
    ensures var w := SerializeFrom(l, pruned, left, maxBytes, size, Halve);
            w.Fits? ==> w.value == Newest(l, |w.value|) && Newest(w.value, LEAST_KEPT) == Newest(l, LEAST_KEPT)
    decreases left
  {
    if size(l) > maxBytes && left > 0 && Halve(l).Some? {
      HalvingKeepsNewest(Halve(l).value, pruned + 1, left - 1, maxBytes, size);
    }
  }

  function Power(n: nat): nat {
    if n == 0 then 1 else 2 * Power(n - 1)
  }

  lemma {:induction false} HalvingReachesTen(l: seq<Envelope>, pruned: nat, left: nat, maxBytes: nat, size: seq<Envelope> -> nat)
    requires |l| <= LEAST_KEPT * Power(left)
    ensures SerializeFrom(l, pruned, left, maxBytes, size, Halve).TooLarge? ==> size(Newest(l, LEAST_KEPT)) > maxBytes
    decreases left
  {
    if size(l) > maxBytes && left > 0 && Halve(l).Some? {
      HalvingReachesTen(Halve(l).value, pruned + 1, left - 1, maxBytes, size);
    }
  }

  /** The attempts never run out: nothing is written only when even the newest
      ten events are too large. */
  lemma SaveGivesUpOnlyAtTen(l: seq<Envelope>, maxBytes: nat, size: seq<Envelope> -> nat)
    ensures Save(l, MAX_EVENTS_PER_RUN, maxBytes, size).TooLarge? ==> size(Newest(l, LEAST_KEPT)) > maxBytes
  {
    assert Power(ATTEMPTS) == 64 by {
      assert Power(3) == 8;
    }
    HalvingReachesTen(Newest(l, MAX_EVENTS_PER_RUN), 0, ATTEMPTS, maxBytes, size);
  }

  lemma AppendFits(stored: seq<Envelope>, events: seq<Envelope>, max: nat, maxBytes: nat, size: seq<Envelope> -> nat)
    requires size(Append(stored, events, max)) <= maxBytes
    ensures AppendSized(stored, events, max, maxBytes, size) == Append(stored, events, max)
  {
  }

  /** When the log in between fits as it is, two appends are one append of both
      batches exactly if the final log can be written, in whole or halved, or
      the first append changed nothing. */
  lemma SizedAppendsComposeIff(stored: seq<Envelope>, a: seq<Envelope>, b: seq<Envelope>,
                               max: nat, maxBytes: nat, size: seq<Envelope> -> nat)
    requires size(Append(stored, a, max)) <= maxBytes
    ensures var first := AppendSized(stored, a, max, maxBytes, size);
            AppendSized(first, b, max, maxBytes, size) == AppendSized(stored, a + b, max, maxBytes, size) <==>
              Save(Append(stored, a + b, max), max, maxBytes, size).Fits? || Append(stored, a, max) == stored
  {
    AppendFits(stored, a, max, maxBytes, size);
    AppendComposes(stored, a, b, max);
  }

  lemma NewestOfNewest(l: seq<Envelope>, n: nat, m: nat)
    requires m <= n
    ensures Newest(Newest(l, n), m) == Newest(l, m)
  {
  }

  /** The newest events after an append depend only on the newest stored ones. */
  lemma NewestAfterAppend(stored: seq<Envelope>, events: seq<Envelope>, max: nat, n: nat)
    requires Ascending(stored) && n <= max
    ensures Newest(Append(stored, events, max), n) == Newest(OfferAll(Newest(stored, n), events), n)
  {
    PutAllRereads(stored);
    NewestOfNewest(OfferAll(stored, events), max, n);
    OfferAllThenKeep(stored, events, n);
  }

  lemma AppendAscends(stored: seq<Envelope>, events: seq<Envelope>, max: nat)
    ensures Ascending(Append(stored, events, max))
  {
    PutAllAscends([], stored);
    OfferAllAscends(PutAll([], stored), events);
    NewestAscends(OfferAll(PutAll([], stored), events), max);
  }

  /** Whatever is halved on the way, as long as everything is written: two
      appends and one append of both batches end with the same newest ten. */
  lemma SizedAppendsAgreeOnNewest(stored: seq<Envelope>, a: seq<Envelope>, b: seq<Envelope>,
                                  max: nat, maxBytes: nat, size: seq<Envelope> -> nat)
    requires max >= LEAST_KEPT && Save(Append(stored, a, max), max, maxBytes, size).Fits?
    requires Save(Append(AppendSized(stored, a, max, maxBytes, size), b, max), max, maxBytes, size).Fits?
    requires Save(Append(stored, a + b, max), max, maxBytes, size).Fits?
    ensures Newest(AppendSized(AppendSized(stored, a, max, maxBytes, size), b, max, maxBytes, size), LEAST_KEPT)
              == Newest(AppendSized(stored, a + b, max, maxBytes, size), LEAST_KEPT)
  {
    var whole, kept := Append(stored, a, max), AppendSized(stored, a, max, maxBytes, size);
    AppendAscends(stored, a, max);
    HalvingKeepsNewest(whole, 0, ATTEMPTS, maxBytes, size);
    NewestAscends(whole, |kept|);
    HalvingKeepsNewest(Append(kept, b, max), 0, ATTEMPTS, maxBytes, size);
    HalvingKeepsNewest(Append(stored, a + b, max), 0, ATTEMPTS, maxBytes, size);
    NewestAfterAppend(kept, b, max, LEAST_KEPT);
    NewestAfterAppend(whole, b, max, LEAST_KEPT);
    AppendComposes(stored, a, b, max);
  }

  // ---------- halving early loses an event ----------

  /** The envelopes numbered from m up to n. */
  function Row(m: nat, n: nat): (r: seq<Envelope>)
    requires m <= n
    ensures |r| == n - m
  {
    seq(n - m, i requires 0 <= i < n - m => Envelope(m + i, Null))
  }

  lemma {:induction false} RowAscends(m: nat, n: nat)
    requires m <= n
    ensures Ascending(Row(m, n))
    decreases n - m
  {
    if m < n {
      RowAscends(m + 1, n);
      assert Row(m, n)[1..] == Row(m + 1, n);
    }
  }

  lemma {:induction false} OffersExtend(l: seq<Envelope>, s: seq<Envelope>)
    requires Ascending(l + s)
    ensures OfferAll(l, s) == l + s
  {
    if s == [] {
      assert l + s == l;
    } else {
      var n := |s| - 1;
      FrontAscends(l + s);
      assert (l + s)[..|l + s| - 1] == l + s[..n];
      OffersExtend(l, s[..n]);
      forall x | x in l + s[..n]
        ensures x.number < s[n].number
      {
        var i :| 0 <= i < |l + s| - 1 && (l + s)[i] == x;
        LastIsGreatest(l + s, i);
      }
      OfferLast(l + s[..n], s[n]);
      assert l + s == l + s[..n] + [s[n]];
    }
  }

  lemma {:induction false} OfferLast(l: seq<Envelope>, e: Envelope)
    requires forall x :: x in l ==> x.number < e.number
    ensures Offer(l, e) == l + [e]
  {
    if l != [] {
      Decompose(l);
      OfferLast(l[1..], e);
    }
  }

  lemma RowsJoin(m: nat, k: nat, n: nat)
    requires m <= k <= n
    ensures Row(m, k) + Row(k, n) == Row(m, n)
  {
  }

  lemma RowsAppend(m: nat, k: nat, n: nat)
    requires m <= k <= n <= m + MAX_EVENTS_PER_RUN
    ensures Append(Row(m, k), Row(k, n), MAX_EVENTS_PER_RUN) == Row(m, n)
  {
    RowAscends(m, k);
    RowAscends(m, n);
    PutAllRereads(Row(m, k));
    RowsJoin(m, k, n);
    OffersExtend(Row(m, k), Row(k, n));
  }

  function Count(l: seq<Envelope>): nat {
    |l|
  }

  lemma SixteenAreHalved()
    ensures AppendSized([], Row(0, 16), MAX_EVENTS_PER_RUN, 15, Count) == Row(6, 16)
  {
    assert Row(0, 0) == [];
    RowsAppend(0, 0, 16);
    assert Newest(Row(0, 16), 10) == Row(6, 16);
  }

  lemma SixMoreAreHalved()
    ensures AppendSized(Row(6, 16), Row(16, 22), MAX_EVENTS_PER_RUN, 15, Count) == Row(12, 22)
  {
    RowsAppend(6, 16, 22);
    assert Newest(Row(6, 22), 10) == Row(12, 22);
  }

  lemma TwentyTwoAreHalved()
    ensures AppendSized([], Row(0, 22), MAX_EVENTS_PER_RUN, 15, Count) == Row(11, 22)
  {
    assert Row(0, 0) == [];
    RowsAppend(0, 0, 22);
    assert Newest(Row(0, 22), 11) == Row(11, 22);
  }

  /** Envelopes of size one and room for fifteen: appended as sixteen and then
      six, halving the sixteen early leaves one event fewer than halving the
      twenty-two once. */
  lemma HalvingEarlyLosesAnEvent()
    ensures var first := AppendSized([], Row(0, 16), MAX_EVENTS_PER_RUN, 15, Count);
            AppendSized(first, Row(16, 22), MAX_EVENTS_PER_RUN, 15, Count) == Row(12, 22)
    ensures AppendSized([], Row(0, 16) + Row(16, 22), MAX_EVENTS_PER_RUN, 15, Count) == Row(11, 22)
  {
    SixteenAreHalved();
    SixMoreAreHalved();
    RowsJoin(0, 16, 22);
    TwentyTwoAreHalved();
  }

  // ---------- the operation ----------

  method SaveEvents(list: seq<Envelope>, maxBytes: nat, size: seq<Envelope> -> nat) returns (w: Written<seq<Envelope>>)
    ensures w == Save(list, MAX_EVENTS_PER_RUN, maxBytes, size)
    ensures w.Fits? ==> size(w.value) <= maxBytes && Newest(w.value, LEAST_KEPT) == Newest(list, LEAST_KEPT)
    ensures w.TooLarge? ==> size(Newest(list, LEAST_KEPT)) > maxBytes
  {
    w := SerializePrunable(Newest(list, MAX_EVENTS_PER_RUN), maxBytes, size, Halve);
    HalvingKeepsNewest(Newest(list, MAX_EVENTS_PER_RUN), 0, ATTEMPTS, maxBytes, size);
    NewestOfNewest(list, MAX_EVENTS_PER_RUN, LEAST_KEPT);
    SaveGivesUpOnlyAtTen(list, maxBytes, size);
  }

  /** The merge loops compute the append, and the result is saved. */
  method AppendEvents(stored: seq<Option<Envelope>>, events: seq<Option<Envelope>>, maxBytes: nat, size: seq<Envelope> -> nat)
    returns (w: Written<seq<Envelope>>)
    ensures w == Save(Append(Valid(stored), Valid(events), MAX_EVENTS_PER_RUN), MAX_EVENTS_PER_RUN, maxBytes, size)
  {
    var keys, merged := MergeStored(stored);
    ghost var base := PutAll([], Valid(stored));
    PutAllAscends([], Valid(stored));
    keys, merged := MergeNew(keys, merged, events, base);
    OfferAllAscends(base, Valid(events));
    var values := SortedValues(keys, merged, OfferAll(base, Valid(events)));
    w := SaveEvents(Newest(values, MAX_EVENTS_PER_RUN), maxBytes, size);
  }
}
