// JSON values over UTF-16 text.
module Json {

  /** A UTF-16 code unit. */
  type Unit = u: int | 0 <= u < 0x1_0000

  type Text = seq<Unit>

  function Ascii(s: string): Text {
    seq(|s|, i requires 0 <= i < |s| => s[i] as int % 0x1_0000)
  }

  /** A value as the runtime holds it. Numbers are identified by their printed
      numeral (a NaN or an infinity prints as null and counts as Null), and an
      object keeps its own key order. */
  datatype Json =
    | Undef
    | Null
    | Bool(b: bool)
    | Num(numeral: Text)
    | Str(text: Text)
    | Arr(items: seq<Json>)
    | Obj(fields: seq<Field>)

  datatype Field = Field(key: Text, value: Json)

  predicate NumeralUnit(u: Unit) {
    48 <= u <= 57 || u == 43 || u == 45 || u == 46 || u == 101
  }

  predicate StartsNumeral(u: Unit) {
    48 <= u <= 57 || u == 45
  }

  predicate DistinctKeys(fields: seq<Field>) {
    forall i, j :: 0 <= i < j < |fields| ==> fields[i].key != fields[j].key
  }

  /** What every runtime value satisfies. */
  predicate WellFormed(v: Json) {
    match v
    case Num(t) => t != [] && StartsNumeral(t[0]) && forall u :: u in t ==> NumeralUnit(u)
    case Arr(items) => forall i :: 0 <= i < |items| ==> WellFormed(items[i])
    case Obj(fields) => DistinctKeys(fields) && forall i :: 0 <= i < |fields| ==> WellFormed(fields[i].value)
    case _ => true
  }
}
