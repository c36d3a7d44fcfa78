// Compaction of the intelligence document, and its bounded serialization.
module IntelligenceDoc {
  import opened Wrappers
  import opened Json
  import opened Serialization

  /** How many entries the array under a key may keep. */
  type Caps = Text -> nat

  function Digits(n: nat): Text {
    if n < 10 then [48 + n] else Digits(n / 10) + [48 + n % 10]
  }

  /** The newest entries; slicing from minus zero keeps everything. */
  function Newest(items: seq<Json>, cap: nat): (r: seq<Json>)
    ensures |r| <= |items|
    ensures cap > 0 ==> |r| <= cap
  {
    if |items| > cap && cap > 0 then items[|items| - cap..] else items
  }

  /** Compacts a node; the items of an array go under their index. */
  function Walk(v: Json, caps: Caps): Json
    decreases v, 1
  {
    match v
    case Obj(fields) => Obj(seq(|fields|, i requires 0 <= i < |fields| => Field(fields[i].key, Trim(fields[i].key, fields[i].value, caps))))
    case Arr(items) => Arr(seq(|items|, i requires 0 <= i < |items| => Trim(Digits(i), items[i], caps)))
    case _ => v
  }

  /** Compacts the value under a key: an array is cut, then each kept entry is walked. */
  function Trim(key: Text, v: Json, caps: Caps): Json
    decreases v, 2
  {
    match v
    case Arr(items) =>
      var start := |items| - |Newest(items, caps(key))|;
      Arr(seq(|items| - start, i requires 0 <= i < |items| - start => Walk(items[start + i], caps)))
    case Obj(_) => Walk(v, caps)
    case _ => v
  }

  /** The document itself must be an object. */
  function Prune(doc: Json, caps: Caps): Json {
    if doc.Obj? then Walk(doc, caps) else doc
  }

  function Excess(items: seq<Json>, cap: nat): nat {
    if |items| > cap then |items| - cap else 0
  }

  /** Entries above the caps, summed over a node. */
  function Overflow(v: Json, caps: Caps): nat
    decreases v, 1
  {
    match v
    case Obj(fields) => FieldsOverflow(fields, caps)
    case Arr(items) => IndexedOverflow(items, 0, caps)
    case _ => 0
  }

  function FieldsOverflow(fields: seq<Field>, caps: Caps): nat
    decreases fields, 3
  {
    if fields == [] then 0 else ValueOverflow(fields[0].key, fields[0].value, caps) + FieldsOverflow(fields[1..], caps)
  }

  function IndexedOverflow(items: seq<Json>, from: nat, caps: Caps): nat
    decreases items, 3
  {
    if items == [] then 0 else ValueOverflow(Digits(from), items[0], caps) + IndexedOverflow(items[1..], from + 1, caps)
  }

  function ItemsOverflow(items: seq<Json>, caps: Caps): nat
    decreases items, 3
  {
    if items == [] then 0 else Overflow(items[0], caps) + ItemsOverflow(items[1..], caps)
  }

  function ValueOverflow(key: Text, v: Json, caps: Caps): nat
    decreases v, 2
  {
    match v
    case Arr(items) => Excess(items, caps(key)) + ItemsOverflow(items, caps)
    case Obj(_) => Overflow(v, caps)
    case _ => 0
  }

  ghost predicate Positive(caps: Caps) {
    forall key :: caps(key) > 0
  }

  // ---------- sums that vanish ----------

  lemma {:induction false} FieldsVanish(fields: seq<Field>, caps: Caps)
    ensures FieldsOverflow(fields, caps) == 0 <==> forall i :: 0 <= i < |fields| ==> ValueOverflow(fields[i].key, fields[i].value, caps) == 0
  {
    if fields != [] {
      FieldsVanish(fields[1..], caps);
      assert forall i :: 0 < i < |fields| ==> fields[i] == fields[1..][i - 1];
    }
  }

  lemma {:induction false} IndexedVanish(items: seq<Json>, from: nat, caps: Caps)
    ensures IndexedOverflow(items, from, caps) == 0 <==> forall i :: 0 <= i < |items| ==> ValueOverflow(Digits(from + i), items[i], caps) == 0
  {
    if items != [] {
      IndexedVanish(items[1..], from + 1, caps);
      var rest := items[1..];
      assert forall i :: 0 <= i < |rest| ==> rest[i] == items[i + 1] && from + 1 + i == from + (i + 1);
      if forall i :: 0 <= i < |items| ==> ValueOverflow(Digits(from + i), items[i], caps) == 0 {
        forall i | 0 <= i < |rest|
          ensures ValueOverflow(Digits(from + 1 + i), rest[i], caps) == 0
        {
          assert ValueOverflow(Digits(from + (i + 1)), items[i + 1], caps) == 0;
        }
        assert ValueOverflow(Digits(from + 0), items[0], caps) == 0;
      }
      if IndexedOverflow(items, from, caps) == 0 {
        forall i | 0 <= i < |items|
          ensures ValueOverflow(Digits(from + i), items[i], caps) == 0
        {
          if i > 0 {
            assert ValueOverflow(Digits(from + 1 + (i - 1)), rest[i - 1], caps) == 0;
          }
        }
      }
    }
  }

  lemma {:induction false} ItemsVanish(items: seq<Json>, caps: Caps)
    ensures ItemsOverflow(items, caps) == 0 <==> forall i :: 0 <= i < |items| ==> Overflow(items[i], caps) == 0
  {
    if items != [] {
      ItemsVanish(items[1..], caps);
      assert forall i :: 0 < i < |items| ==> items[i] == items[1..][i - 1];
    }
  }

  // ---------- compaction ----------

  lemma {:induction false} WalkCompacts(v: Json, caps: Caps)
    requires Positive(caps)
    ensures Overflow(Walk(v, caps), caps) == 0
    decreases v, 1
  {
    var w := Walk(v, caps);
    match v
    case Obj(fields) =>
      forall i | 0 <= i < |fields|
        ensures ValueOverflow(w.fields[i].key, w.fields[i].value, caps) == 0
      {
        TrimCompacts(fields[i].key, fields[i].value, caps);
      }
      FieldsVanish(w.fields, caps);
    case Arr(items) =>
      forall i | 0 <= i < |items|
        ensures ValueOverflow(Digits(0 + i), w.items[i], caps) == 0
      {
        TrimCompacts(Digits(i), items[i], caps);
      }
      IndexedVanish(w.items, 0, caps);
    case _ =>
  }

  lemma {:induction false} TrimCompacts(key: Text, v: Json, caps: Caps)
    requires Positive(caps)
    ensures ValueOverflow(key, Trim(key, v, caps), caps) == 0
    decreases v, 2
  {
    match v
    case Arr(items) =>
      var w, start := Trim(key, v, caps), |items| - |Newest(items, caps(key))|;
      assert caps(key) > 0;
      forall i | 0 <= i < |w.items|
        ensures Overflow(w.items[i], caps) == 0
      {
        WalkCompacts(items[start + i], caps);
      }
      ItemsVanish(w.items, caps);
    case Obj(_) => WalkCompacts(v, caps);
    case _ =>
  }

  /** With caps of at least one, compaction leaves nothing above the caps,
      however deep the document. */
  lemma PruneCompacts(doc: Json, caps: Caps)
    requires Positive(caps) && !doc.Arr?
    ensures Overflow(Prune(doc, caps), caps) == 0
  {
    WalkCompacts(doc, caps);
  }

  lemma {:induction false} WalkKeepsCompact(v: Json, caps: Caps)
    requires Overflow(v, caps) == 0
    ensures Walk(v, caps) == v
    decreases v, 1
  {
    var w := Walk(v, caps);
    match v
    case Obj(fields) =>
      FieldsVanish(fields, caps);
      forall i | 0 <= i < |fields|
        ensures w.fields[i] == fields[i]
      {
        TrimKeepsCompact(fields[i].key, fields[i].value, caps);
      }
      assert w.fields == fields;
    case Arr(items) =>
      IndexedVanish(items, 0, caps);
      forall i | 0 <= i < |items|
        ensures w.items[i] == items[i]
      {
        assert ValueOverflow(Digits(0 + i), items[i], caps) == 0;
        TrimKeepsCompact(Digits(i), items[i], caps);
      }
      assert w.items == items;
    case _ =>
  }

  lemma {:induction false} TrimKeepsCompact(key: Text, v: Json, caps: Caps)
    requires ValueOverflow(key, v, caps) == 0
    ensures Trim(key, v, caps) == v
    decreases v, 2
  {
    match v
    case Arr(items) =>
      var w := Trim(key, v, caps);
      ItemsVanish(items, caps);
      forall i | 0 <= i < |items|
        ensures w.items[i] == items[i]
      {
        WalkKeepsCompact(items[i], caps);
      }
      assert w.items == items;
    case Obj(_) => WalkKeepsCompact(v, caps);
    case _ =>
  }

  /** A document within its caps is left alone. */
  lemma PruneKeepsCompact(doc: Json, caps: Caps)
    requires Overflow(doc, caps) == 0
    ensures Prune(doc, caps) == doc
  {
    WalkKeepsCompact(doc, caps);
  }

  /** Compacting twice is compacting once. */
  lemma PruneIsIdempotent(doc: Json, caps: Caps)
    requires Positive(caps)
    ensures Prune(Prune(doc, caps), caps) == Prune(doc, caps)
  {
    if doc.Obj? {
      PruneCompacts(doc, caps);
      PruneKeepsCompact(Prune(doc, caps), caps);
    }
  }

  /** What compaction makes of a node: the same keys in the same order, or as many
      items, and each value cut to what its key allows. */
  ghost predicate Compacted(before: Json, after: Json, caps: Caps)
    decreases before, 1
  {
    match before
    case Obj(f) =>
      && after.Obj? && |after.fields| == |f|
      && forall i :: 0 <= i < |f| ==> f[i].key == after.fields[i].key && Cut(f[i].key, f[i].value, after.fields[i].value, caps)
    case Arr(xs) =>
      after.Arr? && |after.items| == |xs| && forall i :: 0 <= i < |xs| ==> Cut(Digits(i), xs[i], after.items[i], caps)
    case _ => before == after
  }

  /** Of an array under a key exactly its newest entries remain, as many as the
      cap of the key, each compacted in turn; a cap of zero keeps them all. */
  ghost predicate Cut(key: Text, before: Json, after: Json, caps: Caps)
    decreases before, 2
  {
    match before
    case Arr(xs) =>
      && after.Arr? && |after.items| == (if 0 < caps(key) < |xs| then caps(key) else |xs|)
      && forall i :: 0 <= i < |after.items| ==> Compacted(xs[|xs| - |after.items| + i], after.items[i], caps)
    case Obj(_) => Compacted(before, after, caps)
    case _ => before == after
  }

  lemma {:induction false} WalkKeepsEnds(v: Json, caps: Caps)
    ensures Compacted(v, Walk(v, caps), caps)
    decreases v, 1
  {
    match v
    case Obj(fields) =>
      forall i | 0 <= i < |fields|
        ensures Cut(fields[i].key, fields[i].value, Trim(fields[i].key, fields[i].value, caps), caps)
      {
        TrimKeepsEnds(fields[i].key, fields[i].value, caps);
      }
    case Arr(items) =>
      forall i | 0 <= i < |items|
        ensures Cut(Digits(i), items[i], Trim(Digits(i), items[i], caps), caps)
      {
        TrimKeepsEnds(Digits(i), items[i], caps);
      }
    case _ =>
  }

  lemma {:induction false} TrimKeepsEnds(key: Text, v: Json, caps: Caps)
    ensures Cut(key, v, Trim(key, v, caps), caps)
    decreases v, 2
  {
    match v
    case Arr(items) =>
      forall i | 0 <= i < |items|
        ensures Compacted(items[i], Walk(items[i], caps), caps)
      {
        WalkKeepsEnds(items[i], caps);
      }
    case Obj(_) => WalkKeepsEnds(v, caps);
    case _ =>
  }

  /** Compaction only ever drops the oldest entries of arrays, and no more of them
      than the caps ask for. */
  lemma PruneKeepsEnds(doc: Json, caps: Caps)
    ensures if doc.Obj? then Compacted(doc, Prune(doc, caps), caps) else Prune(doc, caps) == doc
  {
    if doc.Obj? {
      WalkKeepsEnds(doc, caps);
    }
  }

  /** The caps decide: every document is compacted exactly when no cap is zero. */
  lemma CompactsEverythingIffPositive(caps: Caps)
    ensures Positive(caps) <==> forall fields :: Overflow(Prune(Obj(fields), caps), caps) == 0
  {
    if Positive(caps) {
      forall fields
        ensures Overflow(Prune(Obj(fields), caps), caps) == 0
      {
        PruneCompacts(Obj(fields), caps);
      }
    } else {
      var key :| caps(key) == 0;
      var fields := [Field(key, Arr([Null]))];
      var w := Prune(Obj(fields), caps);
      assert w.fields[0] == Field(key, Trim(key, Arr([Null]), caps));
      assert ValueOverflow(w.fields[0].key, w.fields[0].value, caps) > 0;
      FieldsVanish(w.fields, caps);
    }
  }

  // ---------- what is written ----------

  /** The pruner of the intelligence document, with the halved caps; a top-level
      array comes back unchanged, which counts as nothing smaller. */
  function Halver(halved: Caps): Json -> Option<Json> {
    (v: Json) => if !v.Obj? || Overflow(v, halved) == 0 then None else Some(Prune(v, halved))
  }

  /** The loop prunes at most once with effect: what is written is the document
      or its halved form, it fits, and otherwise nothing is written. */
  lemma AtMostOneEffectivePrune(doc: Json, halved: Caps, maxBytes: nat, size: Json -> nat)
    requires Positive(halved)
    ensures var w := SerializeFrom(doc, 0, ATTEMPTS, maxBytes, size, Halver(halved));
            if size(doc) <= maxBytes then w == Fits(doc, 0)
            else if doc.Obj? && Overflow(doc, halved) > 0 && size(Prune(doc, halved)) <= maxBytes then w == Fits(Prune(doc, halved), 1)
            else w.TooLarge?
  {
    var smaller := Prune(doc, halved);
    if doc.Obj? {
      PruneCompacts(doc, halved);
      assert Halver(halved)(smaller) == None;
    }
  }

  // ---------- the caps in use ----------

  const NAMED_CAPS: map<Text, nat> := map[
    Ascii("outcomeEvals") := 200, Ascii("routingHistory") := 300, Ascii("history") := 300, Ascii("benchmarks") := 500,
    Ascii("entries") := 500, Ascii("observations") := 500, Ascii("evaluations") := 200, Ascii("cache") := 500, Ascii("versions") := 100
  ]

  const GENERIC_CAP := 500

  function CapFor(named: map<Text, nat>, key: Text): nat {
    if key in named then named[key] else GENERIC_CAP
  }

  function Halved(named: map<Text, nat>): map<Text, nat> {
    map k | k in named :: if named[k] / 2 > 10 then named[k] / 2 else 10
  }

  /** Halving never yields a cap that could not compact. */
  lemma HalvedCapsArePositive(named: map<Text, nat>)
    ensures Positive(key => CapFor(Halved(named), key))
  {
  }

  /** Nothing is returned when there is no document to write. */
  method SaveIntelligence(doc: Json, maxBytes: nat, size: Json -> nat) returns (w: Option<Written<Json>>)
    ensures w.None? <==> !doc.Obj? && !doc.Arr?
    ensures var compact, halved := Prune(doc, key => CapFor(NAMED_CAPS, key)), key => CapFor(Halved(NAMED_CAPS), key);
            w.Some? ==>
              if size(compact) <= maxBytes then w.value == Fits(compact, 0)
              else if compact.Obj? && Overflow(compact, halved) > 0 && size(Prune(compact, halved)) <= maxBytes then w.value == Fits(Prune(compact, halved), 1)
              else w.value.TooLarge?
  {
    if !doc.Obj? && !doc.Arr? {
      return None;
    }
    var compact := Prune(doc, key => CapFor(NAMED_CAPS, key));
    var halved := key => CapFor(Halved(NAMED_CAPS), key);
    var written := SerializePrunable(compact, maxBytes, size, Halver(halved));
    HalvedCapsArePositive(NAMED_CAPS);
    AtMostOneEffectivePrune(compact, halved, maxBytes, size);
    w := Some(written);
  }
}
