/** Parsed JSON values and the accessors the adapters and providers read them with. */
module JsonValues {
  import opened Events

  /** `Fraction` is every number that is not an integer, as its decimal text. */
  datatype Json =
    | Null
    | Bool(flag: bool)
    | Int(number: int)
    | Fraction(decimal: string)
    | Str(text: string)
    | Arr(items: seq<Json>)
    | Obj(fields: map<string, Json>)

  /** `v.get(key)`. */
  function Get(v: Json, key: string): Option<Json> {
    if v.Obj? && key in v.fields then Some(v.fields[key]) else None
  }

  function Then(v: Option<Json>, key: string): Option<Json> {
    match v
    case None => None
    case Some(value) => Get(value, key)
  }

  function AsText(v: Option<Json>): Option<string> {
    if v.Some? && v.value.Str? then Some(v.value.text) else None
  }

  function AsBool(v: Option<Json>): Option<bool> {
    if v.Some? && v.value.Bool? then Some(v.value.flag) else None
  }

  /** `as_i64`. */
  function AsInt(v: Option<Json>): Option<int> {
    if v.Some? && v.value.Int? && -0x8000_0000_0000_0000 <= v.value.number < 0x8000_0000_0000_0000
    then Some(v.value.number) else None
  }

  /** `as_u64`. */
  function AsNat(v: Option<Json>): Option<nat> {
    if v.Some? && v.value.Int? && 0 <= v.value.number < 0x1_0000_0000_0000_0000 then Some(v.value.number) else None
  }

  /** An integer is read as one where it fits 64 bits, unsigned or signed. */
  lemma IntegersRead(n: int)
    ensures AsNat(Some(Int(n))) == (if 0 <= n <= 18446744073709551615 then Some(n) else None)
    ensures AsInt(Some(Int(n))) == if -9223372036854775808 <= n <= 9223372036854775807 then Some(n) else None
  {
  }

  function AsItems(v: Option<Json>): Option<seq<Json>> {
    if v.Some? && v.value.Arr? then Some(v.value.items) else None
  }

  function Or<T>(v: Option<T>, default: T): T {
    if v.Some? then v.value else default
  }
}
