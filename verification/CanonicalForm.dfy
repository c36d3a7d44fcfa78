// The canonical print identifies exactly the values that are equal up to the
// order of object keys, at every depth.
module CanonicalForm {
  import opened Json
  import opened CanonicalJson

  predicate Blank(items: seq<Json>) {
    items == [] || items == [Undef]
  }

  /** Equality up to key order. A one-item array of undefined prints like an
      empty one and is identified with it; nothing else is. */
  ghost predicate Same(a: Json, b: Json) {
    match (a, b)
    case (Arr(xs), Arr(ys)) => (Blank(xs) && Blank(ys)) || (|xs| == |ys| && forall i :: 0 <= i < |xs| ==> Same(xs[i], ys[i]))
    case (Obj(f), Obj(g)) =>
      && |f| == |g|
      && forall i :: 0 <= i < |f| ==> exists j :: 0 <= j < |g| && f[i].key == g[j].key && Same(f[i].value, g[j].value)
    case _ => a == b
  }

  // ---------- prefixes ----------

  lemma Cancel(p: Text, s: Text, t: Text)
    requires p + s == p + t
    ensures s == t
  {
    assert s == (p + s)[|p|..];
    assert t == (p + t)[|p|..];
  }

  lemma Associate(a: Text, b: Text, c: Text, s: Text)
    ensures a + b + s == a + (b + s)
    ensures a + b + c + s == a + (b + (c + s))
  {
  }

  lemma AssociateFour(a: Text, b: Text, c: Text, d: Text, s: Text)
    ensures a + b + c + d + s == a + (b + (c + (d + s)))
  {
    Associate(a, b, c, d + s);
    Associate(a + b + c, d, [], s);
  }

  /** An empty text, or one that begins with a comma or a closing bracket. */
  predicate Delimited(s: Text) {
    s == [] || s[0] == 44 || s[0] == 93 || s[0] == 125
  }

  predicate Plain(p: Text) {
    forall i :: 0 <= i < |p| ==> p[i] != 44 && p[i] != 93 && p[i] != 125
  }

  /** A text without delimiters ends where the first delimiter stands. */
  lemma SplitAtDelimiter(p: Text, q: Text, s: Text, t: Text)
    requires Plain(p) && Plain(q) && Delimited(s) && Delimited(t) && p + s == q + t
    ensures p == q && s == t
  {
    var u := p + s;
    assert |p| < |u| ==> u[|p|] == s[0];
    assert |q| < |u| ==> u[|q|] == t[0];
    assert |p| == |q|;
    assert p == (p + s)[..|p|];
    assert q == (q + t)[..|q|];
    Cancel(p, s, t);
  }

  // ---------- strings read back ----------

  lemma HexIsInjective(m: int, n: int)
    requires 0 <= m < 16 && 0 <= n < 16 && Hex(m) == Hex(n)
    ensures m == n
  {
  }

  lemma UnicodeEscapeIsInjective(u: Unit, v: Unit)
    requires UnicodeEscape(u) == UnicodeEscape(v)
    ensures u == v
  {
    var a, b := UnicodeEscape(u), UnicodeEscape(v);
    assert a[2] == b[2] && a[3] == b[3] && a[4] == b[4] && a[5] == b[5];
    HexIsInjective(u / 16 / 16 / 16, v / 16 / 16 / 16);
    HexIsInjective(u / 16 / 16 % 16, v / 16 / 16 % 16);
    HexIsInjective(u / 16 % 16, v / 16 % 16);
    HexIsInjective(u % 16, v % 16);
  }

  /** How long a token is shows in its first two units. */
  function Span(t: Text): nat
    requires t != []
  {
    if t[0] == BACKSLASH then (if |t| > 1 && t[1] == 117 then 6 else 2)
    else if High(t[0]) then 2
    else 1
  }

  lemma TokensDoNotOverlap(x: Text, y: Text, s: Text, t: Text)
    requires x != [] && y != [] && Token(x) + s == Token(y) + t
    ensures Token(x) == Token(y)
  {
    var p, q, u := Token(x), Token(y), Token(x) + s;
    assert |p| == Span(p) && |q| == Span(q);
    assert p[0] == u[0] && q[0] == u[0];
    assert |p| > 1 ==> p[1] == u[1];
    assert |q| > 1 ==> q[1] == u[1];
    assert |p| == |q|;
    assert p == u[..|p|] && q == u[..|q|];
  }

  lemma TokenIsInjective(x: Text, y: Text)
    requires x != [] && y != [] && Token(x) == Token(y)
    ensures TokenSpan(x) == TokenSpan(y) && x[..TokenSpan(x)] == y[..TokenSpan(y)]
  {
    var p, q := Token(x), Token(y);
    if |p| == 6 {
      UnicodeEscapeIsInjective(x[0], y[0]);
    }
    if TokenSpan(x) == 2 {
      assert p[0] == x[0];
    }
    if TokenSpan(y) == 2 {
      assert q[0] == y[0];
    }
    assert TokenSpan(x) == 1 ==> x[..1] == [x[0]];
    assert TokenSpan(y) == 1 ==> y[..1] == [y[0]];
  }

  lemma EscapeUnfolds(x: Text, s: Text)
    requires s != [] && s[0] == QUOTE
    ensures x == [] ==> Escape(x) + s == s
    ensures x != [] ==> Escape(x) + s == Token(x) + (Escape(x[TokenSpan(x)..]) + s) && Token(x) != [] && Token(x)[0] != QUOTE
    ensures x == [] <==> (Escape(x) + s)[0] == QUOTE
  {
  }

  lemma {:induction false} EscapeReadable(x: Text, y: Text, s: Text, t: Text)
    requires s != [] && t != [] && s[0] == QUOTE && t[0] == QUOTE
    requires Escape(x) + s == Escape(y) + t
    ensures x == y && s == t
    decreases |x|
  {
    EscapeUnfolds(x, s);
    EscapeUnfolds(y, t);
    if x != [] {
      var s', t' := Escape(x[TokenSpan(x)..]) + s, Escape(y[TokenSpan(y)..]) + t;
      TokensDoNotOverlap(x, y, s', t');
      TokenIsInjective(x, y);
      Cancel(Token(x), s', t');
      EscapeReadable(x[TokenSpan(x)..], y[TokenSpan(y)..], s, t);
      assert x == x[..TokenSpan(x)] + x[TokenSpan(x)..];
      assert y == y[..TokenSpan(y)] + y[TokenSpan(y)..];
    }
  }

  lemma QuoteReadable(x: Text, y: Text, s: Text, t: Text)
    requires Quote(x) + s == Quote(y) + t
    ensures x == y && s == t
  {
    assert Quote(x) + s == [QUOTE] + (Escape(x) + ([QUOTE] + s));
    assert Quote(y) + t == [QUOTE] + (Escape(y) + ([QUOTE] + t));
    Cancel([QUOTE], Escape(x) + ([QUOTE] + s), Escape(y) + ([QUOTE] + t));
    EscapeReadable(x, y, [QUOTE] + s, [QUOTE] + t);
    Cancel([QUOTE], s, t);
  }

  // ---------- values read back ----------

  /** The first unit of a print tells the kind of value. */
  function Lead(v: Json): Unit
    requires WellFormed(v)
  {
    match v
    case Undef => 117
    case Null => 110
    case Bool(b) => if b then 116 else 102
    case Num(t) => t[0]
    case Str(_) => QUOTE
    case Arr(_) => 91
    case Obj(_) => 123
  }

  lemma PrintLeads(v: Json)
    requires WellFormed(v)
    ensures Print(v) != [] && Print(v)[0] == Lead(v)
  {
  }

  lemma NumeralsArePlain(t: Text)
    requires forall u :: u in t ==> NumeralUnit(u)
    ensures Plain(t)
  {
    forall i | 0 <= i < |t|
      ensures t[i] != 44 && t[i] != 93 && t[i] != 125
    {
      assert t[i] in t;
    }
  }

  predicate PlainAtom(v: Json) {
    WellFormed(v) && !v.Str? && !v.Arr? && !v.Obj?
  }

  lemma WordsArePlain(word: string)
    requires forall i :: 0 <= i < |word| ==> 'a' <= word[i] <= 'z'
    ensures Plain(Ascii(word))
  {
  }

  lemma {:induction false} AtomsArePlain(v: Json)
    requires PlainAtom(v)
    ensures Plain(Print(v))
  {
    match v
    case Undef => WordsArePlain("undefined");
    case Null => WordsArePlain("null");
    case Bool(b) => WordsArePlain(if b then "true" else "false");
    case Num(t) => NumeralsArePlain(t);
  }

  lemma {:induction false} PlainAtomsDiffer(a: Json, b: Json)
    requires PlainAtom(a) && PlainAtom(b) && Lead(a) == Lead(b) && Print(a) == Print(b)
    ensures a == b
  {
  }

  lemma {:induction false} AtomsReadable(a: Json, b: Json, s: Text, t: Text)
    requires WellFormed(a) && WellFormed(b) && Delimited(s) && Delimited(t) && Lead(a) == Lead(b)
    requires !a.Arr? && !a.Obj? && Print(a) + s == Print(b) + t
    ensures a == b && s == t
  {
    if a.Str? {
      QuoteReadable(a.text, b.text, s, t);
    } else {
      AtomsArePlain(a);
      AtomsArePlain(b);
      SplitAtDelimiter(Print(a), Print(b), s, t);
      PlainAtomsDiffer(a, b);
    }
  }

  /** Unique readability: a print followed by a delimiter, or by nothing,
      determines the value up to key order, and where it ends. */
  lemma {:induction false} Readable(a: Json, b: Json, s: Text, t: Text)
    requires WellFormed(a) && WellFormed(b) && Delimited(s) && Delimited(t)
    requires Print(a) + s == Print(b) + t
    ensures Same(a, b) && s == t
    decreases a, 1
  {
    PrintLeads(a);
    PrintLeads(b);
    assert (Print(a) + s)[0] == Lead(a) && (Print(b) + t)[0] == Lead(b);
    if a.Arr? {
      ArraysReadable(a.items, b.items, s, t);
    } else if a.Obj? {
      ObjectsReadable(a.fields, b.fields, s, t);
    } else {
      AtomsReadable(a, b, s, t);
    }
  }

  lemma ArraysReadable(xs: seq<Json>, ys: seq<Json>, s: Text, t: Text)
    requires WellFormed(Arr(xs)) && WellFormed(Arr(ys))
    requires Print(Arr(xs)) + s == Print(Arr(ys)) + t
    ensures Same(Arr(xs), Arr(ys)) && s == t
    decreases xs, 2
  {
    Associate([91], Items(xs), [93], s);
    Associate([91], Items(ys), [93], t);
    Cancel([91], Items(xs) + ([93] + s), Items(ys) + ([93] + t));
    ListsReadable(xs, ys, [93] + s, [93] + t);
    Cancel([93], s, t);
  }

  lemma ObjectsReadable(f: seq<Field>, g: seq<Field>, s: Text, t: Text)
    requires WellFormed(Obj(f)) && WellFormed(Obj(g))
    requires Print(Obj(f)) + s == Print(Obj(g)) + t
    ensures Same(Obj(f), Obj(g)) && s == t
    decreases f, |f| + 1
  {
    SortKeeps(Keys(f));
    SortKeeps(Keys(g));
    var ks, ls := Sort(Keys(f)), Sort(Keys(g));
    Associate([123], Entries(f, ks), [125], s);
    Associate([123], Entries(g, ls), [125], t);
    Cancel([123], Entries(f, ks) + ([125] + s), Entries(g, ls) + ([125] + t));
    EntriesReadable(f, ks, g, ls, [125] + s, [125] + t);
    Cancel([125], s, t);
    SameFields(f, g, ks);
  }

  function First(x: Json): Text {
    if x.Undef? then [] else Print(x)
  }

  function Rest(items: seq<Json>): Text
    requires items != []
  {
    if |items| == 1 then [] else [44] + Items(items[1..])
  }

  lemma ItemReadable(x: Json, y: Json, s: Text, t: Text)
    requires WellFormed(x) && WellFormed(y) && s != [] && t != [] && Delimited(s) && Delimited(t)
    requires First(x) + s == First(y) + t
    ensures Same(x, y) && s == t
    decreases x, 2
  {
    PrintLeads(x);
    PrintLeads(y);
    assert First(x) + s != [] && First(y) + t != [];
    assert (First(x) + s)[0] == if x.Undef? then s[0] else Lead(x);
    assert (First(y) + t)[0] == if y.Undef? then t[0] else Lead(y);
    assert x.Undef? <==> y.Undef?;
    if !x.Undef? {
      Readable(x, y, s, t);
    } else {
      assert First(x) + s == s && First(y) + t == t;
    }
  }

  lemma {:induction false} ListsReadable(xs: seq<Json>, ys: seq<Json>, s: Text, t: Text)
    requires WellFormed(Arr(xs)) && WellFormed(Arr(ys))
    requires s != [] && t != [] && s[0] == 93 && t[0] == 93
    requires Items(xs) + s == Items(ys) + t
    ensures Same(Arr(xs), Arr(ys)) && s == t
    decreases xs, 1
  {
    EmptyListReadable(xs, s);
    EmptyListReadable(ys, t);
    if xs != [] && ys != [] {
      FilledListsReadable(xs, ys, s, t);
    }
  }

  lemma FilledListsReadable(xs: seq<Json>, ys: seq<Json>, s: Text, t: Text)
    requires WellFormed(Arr(xs)) && WellFormed(Arr(ys)) && xs != [] && ys != []
    requires s != [] && t != [] && s[0] == 93 && t[0] == 93
    requires Items(xs) + s == Items(ys) + t
    ensures Same(Arr(xs), Arr(ys)) && s == t
    decreases xs, 0
  {
    ListUnfolds(xs, s);
    ListUnfolds(ys, t);
    ItemReadable(xs[0], ys[0], Rest(xs) + s, Rest(ys) + t);
    if |xs| > 1 {
      Cancel([44], Items(xs[1..]) + s, Items(ys[1..]) + t);
      ListsReadable(xs[1..], ys[1..], s, t);
    }
    SameLists(xs, ys);
  }

  lemma SameLists(xs: seq<Json>, ys: seq<Json>)
    requires xs != [] && ys != [] && Same(xs[0], ys[0])
    requires |xs| > 1 <==> |ys| > 1
    requires |xs| > 1 ==> Same(Arr(xs[1..]), Arr(ys[1..]))
    ensures Same(Arr(xs), Arr(ys))
  {
    forall i | 0 < i < |xs|
      ensures |xs| == |ys| && Same(xs[i], ys[i])
    {
      assert xs[i] == xs[1..][i - 1] && ys[i] == ys[1..][i - 1];
    }
  }

  lemma ListUnfolds(xs: seq<Json>, s: Text)
    requires xs != [] && s != [] && s[0] == 93
    ensures Items(xs) + s == First(xs[0]) + (Rest(xs) + s)
    ensures |xs| == 1 ==> Rest(xs) + s == s
    ensures |xs| > 1 ==> Rest(xs) + s == [44] + (Items(xs[1..]) + s)
    ensures Rest(xs) + s != [] && (Rest(xs) + s)[0] == if |xs| == 1 then 93 else 44
  {
    Associate(First(xs[0]), Rest(xs), [], s);
    if |xs| > 1 {
      Associate([44], Items(xs[1..]), [], s);
    }
  }

  lemma EmptyListReadable(xs: seq<Json>, s: Text)
    requires WellFormed(Arr(xs)) && s != [] && s[0] == 93
    ensures Blank(xs) ==> Items(xs) + s == s
    ensures !Blank(xs) ==> (Items(xs) + s)[0] != 93
  {
    if !Blank(xs) {
      PrintLeads(xs[0]);
      assert xs == [xs[0]] + xs[1..];
      assert Items(xs) == First(xs[0]) + Rest(xs);
    }
  }

  function RestOfEntries(fields: seq<Field>, keys: seq<Text>): Text
    requires AllHeld(keys, fields) && keys != []
  {
    if |keys| == 1 then [] else [44] + Entries(fields, keys[1..])
  }

  lemma EntriesUnfold(f: seq<Field>, ks: seq<Text>, s: Text)
    requires AllHeld(ks, f) && s != [] && s[0] == 125
    ensures ks == [] ==> Entries(f, ks) + s == s
    ensures ks != [] ==> Entries(f, ks) + s == Quote(ks[0]) + ([58] + (Print(Lookup(f, ks[0])) + (RestOfEntries(f, ks) + s)))
    ensures ks == [] <==> (Entries(f, ks) + s)[0] == 125
  {
    if ks != [] {
      AssociateFour(Quote(ks[0]), [58], Print(Lookup(f, ks[0])), RestOfEntries(f, ks), s);
    }
  }

  lemma RestOfEntriesUnfolds(f: seq<Field>, ks: seq<Text>, s: Text)
    requires AllHeld(ks, f) && ks != [] && s != [] && s[0] == 125
    ensures |ks| == 1 ==> RestOfEntries(f, ks) + s == s
    ensures |ks| > 1 ==> RestOfEntries(f, ks) + s == [44] + (Entries(f, ks[1..]) + s)
    ensures RestOfEntries(f, ks) + s != [] && (RestOfEntries(f, ks) + s)[0] == if |ks| == 1 then 125 else 44
  {
    if |ks| > 1 {
      Associate([44], Entries(f, ks[1..]), [], s);
    }
  }

  lemma {:induction false} EntriesReadable(f: seq<Field>, ks: seq<Text>, g: seq<Field>, ls: seq<Text>, s: Text, t: Text)
    requires WellFormed(Obj(f)) && WellFormed(Obj(g)) && AllHeld(ks, f) && AllHeld(ls, g)
    requires s != [] && t != [] && s[0] == 125 && t[0] == 125
    requires Entries(f, ks) + s == Entries(g, ls) + t
    ensures ks == ls && s == t && SameAt(f, g, ks)
    decreases f, |ks|, 1
  {
    EntriesUnfold(f, ks, s);
    EntriesUnfold(g, ls, t);
    if ks != [] {
      FilledEntriesReadable(f, ks, g, ls, s, t);
    }
  }

  /** After equal entries, both objects end or both go on alike. */
  lemma RestsAgree(f: seq<Field>, ks: seq<Text>, g: seq<Field>, ls: seq<Text>, s: Text, t: Text)
    requires AllHeld(ks, f) && AllHeld(ls, g) && ks != [] && ls != []
    requires s != [] && t != [] && s[0] == 125 && t[0] == 125
    requires RestOfEntries(f, ks) + s == RestOfEntries(g, ls) + t
    ensures |ks| == 1 <==> |ls| == 1
    ensures |ks| == 1 ==> s == t
    ensures |ks| > 1 ==> Entries(f, ks[1..]) + s == Entries(g, ls[1..]) + t
  {
    RestOfEntriesUnfolds(f, ks, s);
    RestOfEntriesUnfolds(g, ls, t);
    if |ks| > 1 {
      Cancel([44], Entries(f, ks[1..]) + s, Entries(g, ls[1..]) + t);
    }
  }

  ghost predicate SameAt(f: seq<Field>, g: seq<Field>, ks: seq<Text>)
    requires AllHeld(ks, f) && AllHeld(ks, g)
  {
    forall i :: 0 <= i < |ks| ==> Same(Lookup(f, ks[i]), Lookup(g, ks[i]))
  }

  lemma SameAtAll(f: seq<Field>, g: seq<Field>, ks: seq<Text>)
    requires AllHeld(ks, f) && AllHeld(ks, g) && ks != []
    requires Same(Lookup(f, ks[0]), Lookup(g, ks[0])) && SameAt(f, g, ks[1..])
    ensures SameAt(f, g, ks)
  {
    forall i | 0 < i < |ks|
      ensures Same(Lookup(f, ks[i]), Lookup(g, ks[i]))
    {
      assert ks[i] == ks[1..][i - 1];
    }
  }

  lemma {:induction false} FilledEntriesReadable(f: seq<Field>, ks: seq<Text>, g: seq<Field>, ls: seq<Text>, s: Text, t: Text)
    requires WellFormed(Obj(f)) && WellFormed(Obj(g)) && AllHeld(ks, f) && AllHeld(ls, g) && ks != [] && ls != []
    requires s != [] && t != [] && s[0] == 125 && t[0] == 125
    requires Quote(ks[0]) + ([58] + (Print(Lookup(f, ks[0])) + (RestOfEntries(f, ks) + s)))
             == Quote(ls[0]) + ([58] + (Print(Lookup(g, ls[0])) + (RestOfEntries(g, ls) + t)))
    ensures ks == ls && s == t && SameAt(f, g, ks)
    decreases f, |ks|, 0
  {
    RestIsDelimited(f, ks, s);
    RestIsDelimited(g, ls, t);
    EntryReadable(f, ks[0], g, ls[0], RestOfEntries(f, ks) + s, RestOfEntries(g, ls) + t);
    RestsAgree(f, ks, g, ls, s, t);
    if |ks| > 1 {
      EntriesReadable(f, ks[1..], g, ls[1..], s, t);
    }
    Rejoined(ks, ls);
    SameAtAll(f, g, ks);
  }

  lemma Rejoined(ks: seq<Text>, ls: seq<Text>)
    requires ks != [] && ls != [] && ks[0] == ls[0] && ks[1..] == ls[1..]
    ensures ks == ls
  {
    assert ks == [ks[0]] + ks[1..] && ls == [ls[0]] + ls[1..];
  }

  lemma RestIsDelimited(f: seq<Field>, ks: seq<Text>, s: Text)
    requires AllHeld(ks, f) && ks != [] && s != [] && s[0] == 125
    ensures Delimited(RestOfEntries(f, ks) + s)
  {
    RestOfEntriesUnfolds(f, ks, s);
  }

  lemma EntryReadable(f: seq<Field>, k: Text, g: seq<Field>, l: Text, s: Text, t: Text)
    requires WellFormed(Obj(f)) && WellFormed(Obj(g)) && k in Keys(f) && l in Keys(g) && Delimited(s) && Delimited(t)
    requires Quote(k) + ([58] + (Print(Lookup(f, k)) + s)) == Quote(l) + ([58] + (Print(Lookup(g, l)) + t))
    ensures k == l && s == t && Same(Lookup(f, k), Lookup(g, l))
    decreases f, 0
  {
    var a, b := Lookup(f, k), Lookup(g, l);
    QuoteReadable(k, l, [58] + (Print(a) + s), [58] + (Print(b) + t));
    Cancel([58], Print(a) + s, Print(b) + t);
    Readable(a, b, s, t);
  }

  lemma LookupFinds(f: seq<Field>, i: nat)
    requires DistinctKeys(f) && i < |f|
    ensures f[i].key in Keys(f) && Lookup(f, f[i].key) == f[i].value
  {
    assert Keys(f)[i] == f[i].key;
  }

  /** Objects that agree on the sorted list of all their keys are the same. */
  lemma SameFields(f: seq<Field>, g: seq<Field>, ks: seq<Text>)
    requires DistinctKeys(f) && DistinctKeys(g)
    requires ks == Sort(Keys(f)) == Sort(Keys(g)) && AllHeld(ks, f) && AllHeld(ks, g)
    requires SameAt(f, g, ks)
    ensures Same(Obj(f), Obj(g))
  {
    SortKeeps(Keys(f));
    SortKeeps(Keys(g));
    forall i | 0 <= i < |f|
      ensures exists j :: 0 <= j < |g| && f[i].key == g[j].key && Same(f[i].value, g[j].value)
    {
      LookupFinds(f, i);
      var k :| 0 <= k < |ks| && ks[k] == f[i].key;
      assert Same(Lookup(f, ks[k]), Lookup(g, ks[k]));
    }
  }

  // ---------- key order does not matter ----------

  lemma BeforeIsTotal(a: Text, b: Text)
    ensures a == b || Before(a, b) || Before(b, a)
    ensures !(Before(a, b) && Before(b, a)) && !Before(a, a)
  {
    if a != [] && b != [] && a[0] == b[0] {
      BeforeIsTotal(a[1..], b[1..]);
      assert a == [a[0]] + a[1..] && b == [b[0]] + b[1..];
    }
    if a != [] {
      BeforeIsTotal(a[1..], a[1..]);
    }
  }

  lemma BeforeIsTransitive(a: Text, b: Text, c: Text)
    requires Before(a, b) && Before(b, c)
    ensures Before(a, c)
  {
    if a != [] && a[0] == b[0] == c[0] {
      BeforeIsTransitive(a[1..], b[1..], c[1..]);
    }
  }

  ghost predicate Ascending(s: seq<Text>) {
    s != [] ==> (forall k :: k in s[1..] ==> Before(s[0], k)) && Ascending(s[1..])
  }

  lemma InsertAscends(k: Text, s: seq<Text>)
    requires Ascending(s) && k !in s
    ensures Ascending(Insert(k, s))
  {
    if s != [] {
      assert s == [s[0]] + s[1..];
      BeforeIsTotal(k, s[0]);
      if Before(k, s[0]) {
        forall x | x in s
          ensures Before(k, x)
        {
          if x != s[0] {
            BeforeIsTransitive(k, s[0], x);
          }
        }
        assert ([k] + s)[1..] == s;
      } else {
        InsertAscends(k, s[1..]);
        InsertKeeps(k, s[1..]);
        assert ([s[0]] + Insert(k, s[1..]))[1..] == Insert(k, s[1..]);
      }
    }
  }

  lemma SortAscends(keys: seq<Text>)
    requires forall i, j :: 0 <= i < j < |keys| ==> keys[i] != keys[j]
    ensures Ascending(Sort(keys))
  {
    if keys != [] {
      SortAscends(keys[1..]);
      SortKeeps(keys[1..]);
      InsertAscends(keys[0], Sort(keys[1..]));
    }
  }

  lemma {:induction false} AscendingIsUnique(s: seq<Text>, t: seq<Text>)
    requires Ascending(s) && Ascending(t) && forall k :: k in s <==> k in t
    ensures s == t
  {
    assert s != [] ==> s[0] in t;
    assert t != [] ==> t[0] in s;
    if s != [] {
      assert s == [s[0]] + s[1..] && t == [t[0]] + t[1..];
      BeforeIsTotal(s[0], t[0]);
      BeforeIsTotal(s[0], s[0]);
      BeforeIsTotal(t[0], t[0]);
      assert s[0] == t[0];
      forall k
        ensures k in s[1..] <==> k in t[1..]
      {
        assert k in s <==> k in t;
      }
      AscendingIsUnique(s[1..], t[1..]);
    }
  }

  /** Fields of `f` all have a counterpart in `g`, and there are as many. */
  lemma SameKeys(f: seq<Field>, g: seq<Field>)
    requires DistinctKeys(f) && DistinctKeys(g) && Same(Obj(f), Obj(g))
    ensures forall k :: k in Keys(f) <==> k in Keys(g)
  {
    var a, b := KeySet(f, |f|), KeySet(g, |g|);
    forall k | k in a
      ensures k in b
    {
      var i :| 0 <= i < |f| && f[i].key == k;
      var j :| 0 <= j < |g| && f[i].key == g[j].key;
    }
    KeySetSize(f, |f|);
    KeySetSize(g, |g|);
    SubsetOfSameSize(a, b);
    forall k
      ensures k in Keys(f) <==> k in Keys(g)
    {
      assert k in a <==> k in Keys(f);
      assert k in b <==> k in Keys(g);
    }
  }

  ghost function KeySet(f: seq<Field>, n: nat): set<Text>
    requires n <= |f|
  {
    set i | 0 <= i < n :: f[i].key
  }

  lemma KeySetSize(f: seq<Field>, n: nat)
    requires n <= |f| && DistinctKeys(f)
    ensures |KeySet(f, n)| == n
  {
    if n > 0 {
      KeySetSize(f, n - 1);
      assert KeySet(f, n) == KeySet(f, n - 1) + {f[n - 1].key};
      assert f[n - 1].key !in KeySet(f, n - 1);
    }
  }

  lemma SubsetOfSameSize<T>(a: set<T>, b: set<T>)
    requires a <= b && |a| == |b|
    ensures a == b
  {
    assert |b - a| == 0;
  }

  lemma SameLookup(f: seq<Field>, g: seq<Field>, k: Text)
    requires DistinctKeys(f) && DistinctKeys(g) && Same(Obj(f), Obj(g)) && k in Keys(f)
    ensures k in Keys(g) && Same(Lookup(f, k), Lookup(g, k))
  {
    var i :| 0 <= i < |f| && Keys(f)[i] == k;
    var j :| 0 <= j < |g| && f[i].key == g[j].key && Same(f[i].value, g[j].value);
    LookupFinds(f, i);
    LookupFinds(g, j);
  }

  lemma {:induction false} SamePrints(a: Json, b: Json)
    requires WellFormed(a) && WellFormed(b) && Same(a, b)
    ensures Print(a) == Print(b)
    decreases a, 1
  {
    if a.Arr? && b.Arr? {
      SameItemsPrint(a.items, b.items);
    } else if a.Obj? && b.Obj? {
      var f, g := a.fields, b.fields;
      SameKeys(f, g);
      SortKeeps(Keys(f));
      SortKeeps(Keys(g));
      SortAscends(Keys(f));
      SortAscends(Keys(g));
      AscendingIsUnique(Sort(Keys(f)), Sort(Keys(g)));
      SameEntriesPrint(f, g, Sort(Keys(f)));
    }
  }

  lemma {:induction false} SameItemsPrint(xs: seq<Json>, ys: seq<Json>)
    requires WellFormed(Arr(xs)) && WellFormed(Arr(ys)) && Same(Arr(xs), Arr(ys))
    ensures Items(xs) == Items(ys)
    decreases xs, 0
  {
    if xs != [] && ys != [] && |xs| == |ys| {
      assert Same(xs[0], ys[0]);
      SamePrints(xs[0], ys[0]);
      SameItemsPrint(xs[1..], ys[1..]);
    }
  }

  lemma {:induction false} SameEntriesPrint(f: seq<Field>, g: seq<Field>, ks: seq<Text>)
    requires WellFormed(Obj(f)) && WellFormed(Obj(g)) && Same(Obj(f), Obj(g))
    requires AllHeld(ks, f) && AllHeld(ks, g)
    ensures Entries(f, ks) == Entries(g, ks)
    decreases f, |ks|
  {
    if ks != [] {
      SameLookup(f, g, ks[0]);
      SamePrints(Lookup(f, ks[0]), Lookup(g, ks[0]));
      SameEntriesPrint(f, g, ks[1..]);
    }
  }

  /** The print is a canonical form. */
  lemma PrintIsCanonical(a: Json, b: Json)
    requires WellFormed(a) && WellFormed(b)
    ensures Print(a) == Print(b) <==> Same(a, b)
  {
    if Print(a) == Print(b) {
      assert Print(a) + [] == Print(b) + [];
      Readable(a, b, [], []);
    }
    if Same(a, b) {
      SamePrints(a, b);
    }
  }
}
