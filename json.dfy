/**
 * JSON-like values (`serde_json::Value`) and the machine integers the
 * attribute facade reads out of them.
 */
module Json {
  import opened Wrappers

  /** A signed 64-bit integer (Rust `i64`). */
  newtype i64 = x: int | -0x8000_0000_0000_0000 <= x < 0x8000_0000_0000_0000

  /** An unsigned 64-bit integer (Rust `u64`). */
  newtype u64 = x: int | 0 <= x < 0x1_0000_0000_0000_0000

  /**
   * A JSON value. A JSON number is either an integer (`Int`, covering
   * serde_json's `i64` and `u64` representations) or a floating-point
   * number (`Float`), whose IEEE payload is kept opaque: nothing in this
   * core does arithmetic on it.
   */
  datatype Value =
    | Null
    | Bool(b: bool)
    | Int(i: int)
    | Float(payload: nat)
    | Str(s: string)
    | Arr(items: seq<Value>)
    | Obj(fields: map<string, Value>)
  {
    /** `Value::Number(_)` */
    predicate IsNumber() { Int? || Float? }
  }

  /** `Value::as_i64`: integers in the `i64` range only, floats never. */
  function AsI64(v: Value): (r: Option<i64>)
    ensures r.Some? <==> v.Int? && -0x8000_0000_0000_0000 <= v.i < 0x8000_0000_0000_0000
    ensures r.Some? ==> r.value as int == v.i
  {
    if v.Int? && -0x8000_0000_0000_0000 <= v.i < 0x8000_0000_0000_0000 then Some(v.i as i64) else None
  }

  /** `json!(n)` for an `i64`. */
  function FromI64(n: i64): (v: Value)
    ensures AsI64(v) == Some(n)
  {
    Int(n as int)
  }

  /** `value.as_i64().unwrap_or(0)` */
  function I64OrZero(v: Value): i64
  {
    AsI64(v).GetOr(0)
  }

  /** `u as i64`: reinterprets the bits, so values from 2^63 on wrap to negatives. */
  function U64AsI64(u: u64): (r: i64)
    ensures (r as int - u as int) % 0x1_0000_0000_0000_0000 == 0
    ensures u as int < 0x8000_0000_0000_0000 ==> r as int == u as int
    ensures u as int >= 0x8000_0000_0000_0000 ==> r < 0
  {
    if u as int < 0x8000_0000_0000_0000 then u as int as i64
    else (u as int - 0x1_0000_0000_0000_0000) as i64
  }
}
