/** The few JavaScript value rules the chart code leans on: optional fields
    (`undefined`), truthiness, and the `~~` double bitwise negation that the
    touch handler uses to drop the fractional part of a pixel offset. */
module JsValues {

  /** An optional field or value; `None` is JavaScript's `undefined`. */
  datatype Option<+T> = None | Some(value: T) {
    /** `value ?? default`, also `value || default` for always-truthy values such as arrays. */
    function GetOr(default: T): T {
      match this
      case Some(v) => v
      case None => default
    }
  }

  /** A number is truthy unless it is 0 (numbers are reals here, so NaN never occurs). */
  predicate TruthyNumber(o: Option<real>) {
    o.Some? && o.value != 0.0
  }

  /** An integer is truthy unless it is 0. */
  predicate TruthyInt(o: Option<int>) {
    o.Some? && o.value != 0
  }

  /** A string is truthy unless it is empty. */
  predicate TruthyString(o: Option<string>) {
    o.Some? && o.value != ""
  }

  /** `o || d` on an optional number: 0 and undefined both fall back to `d`. */
  function NumberOr(o: Option<real>, d: real): real {
    if TruthyNumber(o) then o.value else d
  }

  /** `o || d` on an optional string: "" and undefined both fall back to `d`. */
  function StringOr(o: Option<string>, d: string): string {
    if TruthyString(o) then o.value else d
  }

  /** `o || d` on an optional boolean. */
  function BoolOr(o: Option<bool>, d: bool): bool {
    if o == Some(true) then true else d
  }

  /** `o !== undefined ? o : d`: only undefined falls back, so 0 and false are kept. */
  function DefinedOr<T>(o: Option<T>, d: T): T {
    o.GetOr(d)
  }

  /** Truncation toward zero (not `Floor`, which rounds negative values down). */
  function Trunc(x: real): (t: int)
    ensures 0.0 <= x ==> 0 <= t && t as real <= x < t as real + 1.0
    ensures x < 0.0 ==> t <= 0 && t as real - 1.0 < x <= t as real
  {
    if x >= 0.0 then x.Floor else -((-x).Floor)
  }

  const TwoTo31: int := 0x8000_0000
  const TwoTo32: int := 0x1_0000_0000

  /** `~~x`: ECMAScript's ToInt32, that is truncation toward zero followed by
      wrap-around into the signed 32-bit range. */
  function ToInt32(x: real): (r: int)
    ensures -TwoTo31 <= r < TwoTo31
    ensures (r - Trunc(x)) % TwoTo32 == 0
  {
    var m := Trunc(x) % TwoTo32;
    if m >= TwoTo31 then m - TwoTo32 else m
  }

  /** For any offset that fits in 32 bits, `~~` is plain truncation toward zero. */
  lemma DoubleTildeTruncates(x: real)
    requires -(TwoTo31 as real) <= x < TwoTo31 as real
    ensures ToInt32(x) == Trunc(x)
  {
  }
}
