// The canonical print that binds an approval to its parameters.
module CanonicalJson {
  import opened Json

  const QUOTE: Unit := 34
  const BACKSLASH: Unit := 92

  // ---------- strings ----------

  predicate High(u: Unit) {
    0xD800 <= u < 0xDC00
  }

  predicate Low(u: Unit) {
    0xDC00 <= u < 0xE000
  }

  function Hex(n: int): (u: Unit)
    requires 0 <= n < 16
  {
    if n < 10 then 48 + n else 87 + n
  }

  function UnicodeEscape(u: Unit): Text {
    [BACKSLASH, 117, Hex(u / 16 / 16 / 16), Hex(u / 16 / 16 % 16), Hex(u / 16 % 16), Hex(u % 16)]
  }

  /** How many units the first token of a string covers: a surrogate pair is
      one token, everything else stands alone. */
  function TokenSpan(s: Text): (n: nat)
    requires s != []
    ensures 1 <= n <= 2 && n <= |s|
  {
    if |s| > 1 && High(s[0]) && Low(s[1]) then 2 else 1
  }

  function Token(s: Text): Text
    requires s != []
  {
    var u := s[0];
    if TokenSpan(s) == 2 then s[..2]
    else if u == QUOTE || u == BACKSLASH then [BACKSLASH, u]
    else if u == 8 then [BACKSLASH, 98]
    else if u == 9 then [BACKSLASH, 116]
    else if u == 10 then [BACKSLASH, 110]
    else if u == 12 then [BACKSLASH, 102]
    else if u == 13 then [BACKSLASH, 114]
    else if u < 32 || High(u) || Low(u) then UnicodeEscape(u)
    else [u]
  }

  function DigitValue(d: Unit): int {
    if 48 <= d <= 57 then d - 48 else d - 87
  }

  predicate HexDigit(d: Unit) {
    48 <= d <= 57 || 97 <= d <= 102
  }

  /** An escape is four hexadecimal digits whose value is the unit. */
  lemma EscapeReadsBack(u: Unit)
    ensures var t := UnicodeEscape(u);
            && |t| == 6 && t[..2] == [BACKSLASH, 117] && HexDigit(t[2]) && HexDigit(t[3]) && HexDigit(t[4]) && HexDigit(t[5])
            && ((DigitValue(t[2]) * 16 + DigitValue(t[3])) * 16 + DigitValue(t[4])) * 16 + DigitValue(t[5]) == u
  {
  }

  /** A unit that stands alone prints as itself exactly when it is no control
      character, quote, backslash or half of a surrogate pair; and exactly a high
      and a low half together are a pair. */
  lemma PlainIff(u: Unit, v: Unit)
    ensures Token([u]) == [u] <==> u >= 32 && u != 34 && u != 92 && u / 0x800 != 0x1B
    ensures TokenSpan([u, v]) == 2 <==> u / 0x400 == 0x36 && v / 0x400 == 0x37
    ensures TokenSpan([u, v]) == 2 ==> Token([u, v]) == [u, v]
  {
  }

  function Escape(s: Text): Text {
    if s == [] then [] else Token(s) + Escape(s[TokenSpan(s)..])
  }

  function Quote(s: Text): Text {
    [QUOTE] + Escape(s) + [QUOTE]
  }

  // ---------- key order ----------

  /** Strict order of texts by code units. */
  predicate Before(a: Text, b: Text) {
    b != [] && (a == [] || a[0] < b[0] || (a[0] == b[0] && Before(a[1..], b[1..])))
  }

  function Keys(fields: seq<Field>): (r: seq<Text>)
    ensures |r| == |fields| && forall i :: 0 <= i < |r| ==> r[i] == fields[i].key
  {
    seq(|fields|, i requires 0 <= i < |fields| => fields[i].key)
  }

  function Insert(k: Text, sorted: seq<Text>): seq<Text> {
    if sorted == [] || Before(k, sorted[0]) then [k] + sorted else [sorted[0]] + Insert(k, sorted[1..])
  }

  function Sort(keys: seq<Text>): seq<Text> {
    if keys == [] then [] else Insert(keys[0], Sort(keys[1..]))
  }

  // ---------- the print ----------

  /** The value of a key that the object has. */
  function Lookup(fields: seq<Field>, k: Text): (v: Json)
    requires k in Keys(fields)
    ensures exists i :: 0 <= i < |fields| && fields[i].key == k && fields[i].value == v
  {
    if fields[0].key == k then fields[0].value
    else
      assert Keys(fields) == [fields[0].key] + Keys(fields[1..]);
      Lookup(fields[1..], k)
  }

  predicate AllHeld(keys: seq<Text>, fields: seq<Field>) {
    forall i :: 0 <= i < |keys| ==> keys[i] in Keys(fields)
  }

  function Print(v: Json): Text
    decreases v, 0
  {
    match v
    case Undef => Ascii("undefined")
    case Null => Ascii("null")
    case Bool(b) => if b then Ascii("true") else Ascii("false")
    case Num(t) => t
    case Str(s) => Quote(s)
    case Arr(items) => [91] + Items(items) + [93]
    case Obj(fields) =>
      SortKeeps(Keys(fields));
      [123] + Entries(fields, Sort(Keys(fields))) + [125]
  }

  /** Joined with commas; joining prints an undefined item as nothing. */
  function Items(items: seq<Json>): Text
    decreases items, 0
  {
    if items == [] then []
    else
      (if items[0].Undef? then [] else Print(items[0])) + (if |items| == 1 then [] else [44] + Items(items[1..]))
  }

  function Entries(fields: seq<Field>, keys: seq<Text>): Text
    requires AllHeld(keys, fields)
    decreases fields, |keys|
  {
    if keys == [] then []
    else
      Quote(keys[0]) + [58] + Print(Lookup(fields, keys[0])) + (if |keys| == 1 then [] else [44] + Entries(fields, keys[1..]))
  }

  lemma InsertKeeps(k: Text, sorted: seq<Text>)
    ensures forall x :: x in Insert(k, sorted) <==> x == k || x in sorted
    ensures |Insert(k, sorted)| == |sorted| + 1
  {
    if sorted != [] && !Before(k, sorted[0]) {
      InsertKeeps(k, sorted[1..]);
      assert sorted == [sorted[0]] + sorted[1..];
    }
  }

  lemma SortKeeps(keys: seq<Text>)
    ensures forall x :: x in Sort(keys) <==> x in keys
    ensures |Sort(keys)| == |keys|
  {
    if keys != [] {
      SortKeeps(keys[1..]);
      InsertKeeps(keys[0], Sort(keys[1..]));
      assert keys == [keys[0]] + keys[1..];
    }
  }
}
