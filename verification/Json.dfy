/** JSON values as JavaScript holds them, without prototypes: only own properties are read. */
module Json {
  import opened JsText

  /** What String(number) can print */
  type Numeral = s: string | s != "" && forall c :: c in s ==> IsNumeralChar(c) witness "0"

  predicate IsNumeralChar(c: char) { IsDigit(c) || c in {'+', '-', '.', 'e', 'I', 'n', 'f', 'i', 't', 'y', 'N', 'a'} }

  /** `Undefined` is what a missing property reads as; an object may also hold it. */
  datatype Json =
    | Undefined
    | Null
    | Bool(value: bool)
    | Num(text: Numeral)
    | Str(s: string)
    | Arr(items: seq<Json>)
    | Obj(fields: map<string, Json>)

  type Fields = map<string, Json>

  function Decimal(n: nat): Numeral
  {
    if n < 10 then [Digit(n)] else Decimal(n / 10) + [Digit(n % 10)]
  }

  function Digit(n: nat): (c: char)
    requires n < 10
    ensures IsDigit(c)
  {
    '0' + (n as char)
  }

  /** The position an array or string index names: its decimal form, without leading zeros */
  function IndexNamed(key: string, length: nat): Option<nat> {
    var i := Value(key);
    if i < length && Decimal(i) == key then Some(i) else None
  }

  function Value(key: string): nat {
    if key == "" then 0
    else 10 * Value(key[..|key| - 1]) + (if IsDigit(key[|key| - 1]) then (key[|key| - 1] - '0') as nat else 0)
  }

  /** Object(value)[key] for own properties */
  function Get(v: Json, key: string): Json {
    match v
    case Obj(fields) => Field(fields, key)
    case Arr(items) =>
      if key == "length" then Num(Decimal(|items|))
      else if IndexNamed(key, |items|).Some? then items[IndexNamed(key, |items|).value] else Undefined
    case Str(s) =>
      if key == "length" then Num(Decimal(|s|))
      else if IndexNamed(key, |s|).Some? then Str([s[IndexNamed(key, |s|).value]]) else Undefined
    case _ => Undefined
  }

  function Field(fields: Fields, key: string): Json { if key in fields then fields[key] else Undefined }

  predicate Truthy(v: Json) {
    match v
    case Undefined => false
    case Null => false
    case Bool(b) => b
    case Num(text) => text !in {"0", "-0", "NaN"}
    case Str(s) => s != ""
    case _ => true
  }

  /** value !== null && typeof value === 'object' */
  predicate IsObject(v: Json) { v.Arr? || v.Obj? }

  predicate IsScalar(v: Json) { v.Bool? || v.Num? || v.Str? }

  /** String(value) */
  function Text(v: Json): string
    requires IsScalar(v)
  {
    match v
    case Bool(b) => if b then "true" else "false"
    case Num(text) => text
    case Str(s) => s
  }

  predicate HasLineBreak(s: string) { '\r' in s || '\n' in s }

  /** Only strings carry line breaks. */
  lemma TextOnOneLine(v: Json)
    requires v.Bool? || v.Num?
    ensures !HasLineBreak(Text(v))
  {
    if v.Num? { assert !IsNumeralChar('\r') && !IsNumeralChar('\n'); }
  }

  lemma {:induction false} DecimalValue(n: nat)
    ensures Value(Decimal(n)) == n
  {
    if n >= 10 {
      DecimalValue(n / 10);
      assert Decimal(n)[..|Decimal(n)| - 1] == Decimal(n / 10);
    } else {
      assert Decimal(n)[..0] == "";
    }
  }

  /** The keys that name a position of an array or a string are the decimal forms of the positions,
      one for each: no leading zeros, no signs, nothing out of range. */
  lemma IndexNames(key: string, length: nat, i: nat)
    ensures IndexNamed(key, length) == Some(i) <==> i < length && key == Decimal(i)
  {
    DecimalValue(i);
  }
}
