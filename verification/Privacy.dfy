// Privacy at the serialization boundary.
module Privacy {
  import opened Json

  datatype Mode = Standard | MetadataOnly | ZeroRetention

  const REDACTED: Json := Str(Ascii("[REDACTED_BY_PRIVACY]"))

  const CONTENT_KEYS: set<Text> := {
    Ascii("content"), Ascii("text"), Ascii("full"), Ascii("delta"), Ascii("prompt"), Ascii("query"), Ascii("userText"),
    Ascii("userMessage"), Ascii("snippet"), Ascii("raw"), Ascii("result"), Ascii("output"), Ascii("stdout"), Ascii("stderr"),
    Ascii("arguments"), Ascii("input"), Ascii("messages"), Ascii("memory"), Ascii("contextItems"), Ascii("compressedItems"),
    Ascii("discardedItems"), Ascii("working"), Ascii("longterm"), Ascii("message"), Ascii("description"), Ascii("objective"),
    Ascii("goal"), Ascii("sourceTask"), Ascii("providerMetadata"), Ascii("providerPayload"), Ascii("responseBody")
  }

  const SECRET_WORDS: set<Text> := {
    Ascii("apikey"), Ascii("api_key"), Ascii("api-key"), Ascii("authorization"), Ascii("bearer"), Ascii("secret"), Ascii("password"),
    Ascii("sessiontoken"), Ascii("session_token"), Ascii("session-token"),
    Ascii("accesstoken"), Ascii("access_token"), Ascii("access-token"),
    Ascii("refreshtoken"), Ascii("refresh_token"), Ascii("refresh-token")
  }

  function Lower(t: Text): Text {
    seq(|t|, i requires 0 <= i < |t| => if 65 <= t[i] <= 90 then t[i] + 32 else t[i])
  }

  predicate Contains(t: Text, w: Text) {
    exists i :: 0 <= i <= |t| && w <= t[i..]
  }

  /** A key that contains one of the secret words, whatever its letter case. */
  predicate Secret(key: Text) {
    exists w :: w in SECRET_WORDS && Contains(Lower(key), w)
  }

  lemma LowerOfSlice(t: Text, i: nat, j: nat)
    requires i <= j <= |t|
    ensures Lower(t[i..j]) == Lower(t)[i..j]
  {
  }

  /** A key is secret exactly when some part of it is one of the words but for its
      letter case. */
  lemma SecretIff(key: Text)
    ensures Secret(key) <==> exists i: nat, j: nat :: i <= j <= |key| && Lower(key[i..j]) in SECRET_WORDS
  {
    if Secret(key) {
      var w :| w in SECRET_WORDS && Contains(Lower(key), w);
      var i :| 0 <= i <= |Lower(key)| && w <= Lower(key)[i..];
      LowerOfSlice(key, i, i + |w|);
      assert Lower(key)[i..i + |w|] == w;
      assert Lower(key[i..i + |w|]) in SECRET_WORDS;
    }
    if i: nat, j: nat :| i <= j <= |key| && Lower(key[i..j]) in SECRET_WORDS {
      LowerOfSlice(key, i, j);
      var w := Lower(key)[i..j];
      assert w <= Lower(key)[i..];
      assert Contains(Lower(key), w);
    }
  }

  /** The same letter, perhaps in the other case, or the same unit. */
  predicate SameLetter(x: Unit, y: Unit) {
    x == y || (65 <= x <= 90 && y == x + 32) || (65 <= y <= 90 && x == y + 32)
  }

  predicate SameButCase(a: Text, b: Text) {
    |a| == |b| && forall i :: 0 <= i < |a| ==> SameLetter(a[i], b[i])
  }

  predicate NoCapitals(t: Text) {
    forall i :: 0 <= i < |t| ==> t[i] < 65 || t[i] > 90
  }

  /** Two keys are compared alike exactly when they differ in letter case only, and
      a key without capitals is compared as it is. */
  lemma LowerIff(a: Text, b: Text)
    ensures Lower(a) == Lower(b) <==> SameButCase(a, b)
    ensures NoCapitals(a) ==> Lower(a) == a
  {
    if Lower(a) == Lower(b) {
      forall i | 0 <= i < |a|
        ensures SameLetter(a[i], b[i])
      {
        assert Lower(a)[i] == Lower(b)[i];
      }
    }
  }

  /** Which keys name secrets and which name content. */
  datatype KeyRules = KeyRules(secret: Text -> bool, content: Text -> bool)

  const KEYS := KeyRules(Secret, key => key in CONTENT_KEYS)

  /** A key whose value the mode hides. */
  predicate Hidden(rules: KeyRules, mode: Mode, key: Text) {
    mode != Standard && rules.content(key)
  }

  function Sanitize(rules: KeyRules, v: Json, mode: Mode, key: Text): Json {
    match v
    case Str(_) => if Hidden(rules, mode, key) then REDACTED else v
    case Arr(items) => Arr(seq(|items|, i requires 0 <= i < |items| => Sanitize(rules, items[i], mode, key)))
    case Obj(fields) => Obj(seq(|fields|, i requires 0 <= i < |fields| => SanitizeField(rules, fields[i], mode)))
    case _ => v
  }

  /** A secret is replaced, hidden content leaves only whether it was an array. */
  function SanitizeField(rules: KeyRules, f: Field, mode: Mode): Field {
    Field(f.key,
          if rules.secret(f.key) then REDACTED
          else if Hidden(rules, mode, f.key) then (if f.value.Arr? then Arr([]) else REDACTED)
          else Sanitize(rules, f.value, mode, f.key))
  }

  function Clean(v: Json, mode: Mode): Json {
    Sanitize(KEYS, v, mode, [])
  }

  /** Sanitizing twice is sanitizing once. */
  lemma {:induction false} SanitizeIdempotent(rules: KeyRules, v: Json, mode: Mode, key: Text)
    ensures Sanitize(rules, Sanitize(rules, v, mode, key), mode, key) == Sanitize(rules, v, mode, key)
  {
    var w := Sanitize(rules, v, mode, key);
    if v.Arr? {
      var again := Sanitize(rules, w, mode, key);
      forall i | 0 <= i < |v.items|
        ensures again.items[i] == w.items[i]
      {
        SanitizeIdempotent(rules, v.items[i], mode, key);
      }
      assert again.items == w.items;
    } else if v.Obj? {
      var again := Sanitize(rules, w, mode, key);
      forall i | 0 <= i < |v.fields|
        ensures again.fields[i] == w.fields[i]
      {
        FieldIdempotent(rules, v.fields[i], mode);
      }
      assert again.fields == w.fields;
    }
  }

  lemma {:induction false} FieldIdempotent(rules: KeyRules, f: Field, mode: Mode)
    ensures SanitizeField(rules, SanitizeField(rules, f, mode), mode) == SanitizeField(rules, f, mode)
  {
    if !rules.secret(f.key) && !Hidden(rules, mode, f.key) {
      SanitizeIdempotent(rules, f.value, mode, f.key);
    }
  }

  /** Every secret of a value, however deep, is replaced, and so is what the mode
      hides but for whether it was an array. */
  ghost predicate Redacted(rules: KeyRules, v: Json, mode: Mode, key: Text) {
    match v
    case Str(_) => mode != Standard && rules.content(key) ==> v == REDACTED
    case Arr(items) => forall i :: 0 <= i < |items| ==> Redacted(rules, items[i], mode, key)
    case Obj(fields) =>
      forall i :: 0 <= i < |fields| ==>
        && (rules.secret(fields[i].key) ==> fields[i].value == REDACTED)
        && (!rules.secret(fields[i].key) ==>
              if mode != Standard && rules.content(fields[i].key) then fields[i].value == REDACTED || fields[i].value == Arr([])
              else Redacted(rules, fields[i].value, mode, fields[i].key))
    case _ => true
  }

  /** Nothing secret or hidden survives. */
  lemma {:induction false} NothingSecretSurvives(rules: KeyRules, v: Json, mode: Mode, key: Text)
    ensures Redacted(rules, Sanitize(rules, v, mode, key), mode, key)
  {
    match v
    case Arr(items) =>
      forall i | 0 <= i < |items|
        ensures Redacted(rules, Sanitize(rules, items[i], mode, key), mode, key)
      {
        NothingSecretSurvives(rules, items[i], mode, key);
      }
    case Obj(fields) =>
      forall i | 0 <= i < |fields|
        ensures Redacted(rules, Sanitize(rules, fields[i].value, mode, fields[i].key), mode, fields[i].key)
      {
        NothingSecretSurvives(rules, fields[i].value, mode, fields[i].key);
      }
    case _ =>
  }

  /** What has nothing left to replace is left alone. */
  lemma {:induction false} RedactedIsLeftAlone(rules: KeyRules, v: Json, mode: Mode, key: Text)
    requires Redacted(rules, v, mode, key)
    ensures Sanitize(rules, v, mode, key) == v
  {
    match v
    case Arr(items) =>
      forall i | 0 <= i < |items|
        ensures Sanitize(rules, items[i], mode, key) == items[i]
      {
        RedactedIsLeftAlone(rules, items[i], mode, key);
      }
      assert Sanitize(rules, v, mode, key).items == items;
    case Obj(fields) =>
      forall i | 0 <= i < |fields|
        ensures SanitizeField(rules, fields[i], mode) == fields[i]
      {
        if !rules.secret(fields[i].key) && !Hidden(rules, mode, fields[i].key) {
          RedactedIsLeftAlone(rules, fields[i].value, mode, fields[i].key);
        }
      }
      assert Sanitize(rules, v, mode, key).fields == fields;
    case _ =>
  }

  /** Two values that differ only under secret keys, and under hidden content
      keys only as far as both or neither are arrays. */
  ghost predicate EqualOutside(rules: KeyRules, a: Json, b: Json, mode: Mode, key: Text) {
    match (a, b)
    case (Str(s), Str(t)) => Hidden(rules, mode, key) || s == t
    case (Arr(xs), Arr(ys)) => |xs| == |ys| && forall i :: 0 <= i < |xs| ==> EqualOutside(rules, xs[i], ys[i], mode, key)
    case (Obj(f), Obj(g)) => |f| == |g| && forall i :: 0 <= i < |f| ==> FieldsEqualOutside(rules, f[i], g[i], mode)
    case _ => a == b
  }

  ghost predicate FieldsEqualOutside(rules: KeyRules, f: Field, g: Field, mode: Mode) {
    && f.key == g.key
    && (rules.secret(f.key)
        || if Hidden(rules, mode, f.key) then f.value.Arr? <==> g.value.Arr? else EqualOutside(rules, f.value, g.value, mode, f.key))
  }

  /** Non-interference, exactly: what is visible depends on nothing but the
      data outside secret and hidden keys, and on all of that. */
  lemma {:induction false} VisibleDataOnly(rules: KeyRules, a: Json, b: Json, mode: Mode, key: Text)
    ensures Sanitize(rules, a, mode, key) == Sanitize(rules, b, mode, key) <==> EqualOutside(rules, a, b, mode, key)
  {
    var x, y := Sanitize(rules, a, mode, key), Sanitize(rules, b, mode, key);
    match (a, b)
    case (Arr(xs), Arr(ys)) =>
      if |xs| == |ys| {
        forall i | 0 <= i < |xs|
          ensures x.items[i] == y.items[i] <==> EqualOutside(rules, xs[i], ys[i], mode, key)
        {
          VisibleDataOnly(rules, xs[i], ys[i], mode, key);
        }
      }
      assert EqualOutside(rules, a, b, mode, key) ==> x.items == y.items;
    case (Obj(f), Obj(g)) =>
      if |f| == |g| {
        forall i | 0 <= i < |f|
          ensures x.fields[i] == y.fields[i] <==> FieldsEqualOutside(rules, f[i], g[i], mode)
        {
          VisibleFieldOnly(rules, f[i], g[i], mode);
        }
      }
      assert EqualOutside(rules, a, b, mode, key) ==> x.fields == y.fields;
    case _ =>
  }

  lemma {:induction false} VisibleFieldOnly(rules: KeyRules, f: Field, g: Field, mode: Mode)
    ensures SanitizeField(rules, f, mode) == SanitizeField(rules, g, mode) <==> FieldsEqualOutside(rules, f, g, mode)
  {
    if f.key == g.key {
      VisibleDataOnly(rules, f.value, g.value, mode, f.key);
    }
  }

  // ---------- persisted events ----------

  /** A value with nothing undefined in it. */
  predicate Defined(v: Json) {
    match v
    case Undef => false
    case Arr(items) => forall i :: 0 <= i < |items| ==> Defined(items[i])
    case Obj(fields) => forall i :: 0 <= i < |fields| ==> Defined(fields[i].value)
    case _ => true
  }

  /** A round trip through JSON text: undefined items become null, undefined
      fields disappear. */
  function Clone(v: Json): Json {
    match v
    case Arr(items) => Arr(seq(|items|, i requires 0 <= i < |items| => if items[i].Undef? then Null else Clone(items[i])))
    case Obj(fields) => Obj(CloneFields(fields))
    case _ => v
  }

  function CloneFields(fields: seq<Field>): seq<Field> {
    if fields == [] then []
    else
      (if fields[0].value.Undef? then [] else [Field(fields[0].key, Clone(fields[0].value))]) + CloneFields(fields[1..])
  }

  lemma {:induction false} CloneDefines(v: Json)
    ensures v.Undef? || Defined(Clone(v))
  {
    match v
    case Arr(items) =>
      forall i | 0 <= i < |items|
        ensures items[i].Undef? || Defined(Clone(items[i]))
      {
        CloneDefines(items[i]);
      }
    case Obj(fields) => CloneFieldsDefines(fields);
    case _ =>
  }

  lemma {:induction false} CloneFieldsDefines(fields: seq<Field>)
    ensures Defined(Obj(CloneFields(fields)))
  {
    if fields != [] {
      CloneDefines(fields[0].value);
      CloneFieldsDefines(fields[1..]);
    }
  }

  lemma {:induction false} CloneOfDefined(v: Json)
    requires Defined(v)
    ensures Clone(v) == v
  {
    match v
    case Arr(items) =>
      forall i | 0 <= i < |items|
        ensures Clone(items[i]) == items[i]
      {
        CloneOfDefined(items[i]);
      }
      assert Clone(v).items == items;
    case Obj(fields) => CloneFieldsOfDefined(fields);
    case _ =>
  }

  lemma {:induction false} CloneFieldsOfDefined(fields: seq<Field>)
    requires Defined(Obj(fields))
    ensures CloneFields(fields) == fields
  {
    if fields != [] {
      CloneOfDefined(fields[0].value);
      CloneFieldsOfDefined(fields[1..]);
      assert fields == [fields[0]] + fields[1..];
    }
  }

  lemma {:induction false} SanitizeKeepsDefined(rules: KeyRules, v: Json, mode: Mode, key: Text)
    requires Defined(v)
    ensures Defined(Sanitize(rules, v, mode, key))
  {
    match v
    case Arr(items) =>
      forall i | 0 <= i < |items|
        ensures Defined(Sanitize(rules, items[i], mode, key))
      {
        SanitizeKeepsDefined(rules, items[i], mode, key);
      }
    case Obj(fields) =>
      forall i | 0 <= i < |fields|
        ensures Defined(SanitizeField(rules, fields[i], mode).value)
      {
        SanitizeKeepsDefined(rules, fields[i].value, mode, fields[i].key);
      }
    case _ =>
  }

  function PersistedEvents(rules: KeyRules, events: seq<Json>, mode: Mode): seq<Json> {
    if mode == ZeroRetention then []
    else seq(|events|, i requires 0 <= i < |events| => Sanitize(rules, Clone(events[i]), mode, []))
  }

  lemma PersistedOnce(rules: KeyRules, e: Json, mode: Mode)
    ensures var once := Sanitize(rules, Clone(e), mode, []); Sanitize(rules, Clone(once), mode, []) == once
  {
    SanitizeIdempotent(rules, Clone(e), mode, []);
    if !e.Undef? {
      CloneDefines(e);
      SanitizeKeepsDefined(rules, Clone(e), mode, []);
      CloneOfDefined(Sanitize(rules, Clone(e), mode, []));
    }
  }

  /** With zero retention nothing is persisted, and otherwise every event, redacted. */
  lemma PersistedIsRedacted(rules: KeyRules, events: seq<Json>, mode: Mode)
    ensures var r := PersistedEvents(rules, events, mode);
            && |r| == (if mode.ZeroRetention? then 0 else |events|)
            && forall i :: 0 <= i < |r| ==> r[i] == Sanitize(rules, Clone(events[i]), mode, []) && Redacted(rules, r[i], mode, [])
  {
    forall i | 0 <= i < |events|
      ensures Redacted(rules, Sanitize(rules, Clone(events[i]), mode, []), mode, [])
    {
      NothingSecretSurvives(rules, Clone(events[i]), mode, []);
    }
  }

  /** Persisting what is already persisted changes nothing. */
  lemma PersistedTwice(rules: KeyRules, events: seq<Json>, mode: Mode)
    ensures PersistedEvents(rules, PersistedEvents(rules, events, mode), mode) == PersistedEvents(rules, events, mode)
  {
    forall i | 0 <= i < |events|
      ensures var once := Sanitize(rules, Clone(events[i]), mode, []); Sanitize(rules, Clone(once), mode, []) == once
    {
      PersistedOnce(rules, events[i], mode);
    }
  }
}
