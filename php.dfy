/**
 * The slice of PHP value semantics the SDK relies on: the dynamic value
 * kinds that can sit in an `array`, `empty()`, `isset()`, truthiness and the
 * `is_*` type tests.
 */
module Php {
  import opened Wrappers

  /**
   * A PHP value. `PFloat` ignores NaN and the infinities; `PObject` stands for
   * any object (never empty, never a string). Arrays are keyed by strings:
   * PHP stores a numeric-string key as the integer it spells, so lookups behave
   * the same either way.
   */
  datatype PhpValue =
    | PNull
    | PBool(b: bool)
    | PInt(i: int)
    | PFloat(f: real)
    | PStr(s: string)
    | PArr(entries: map<string, PhpValue>)
    | PObject

  /** A PHP `array`, as it is passed to and returned from the SDK. */
  type PhpArray = map<string, PhpValue>

  /** `$a[$k]`: a missing key reads as null. */
  function Lookup(a: PhpArray, k: string): (v: PhpValue)
    ensures k !in a ==> v == PNull
    ensures k in a ==> v == a[k]
  {
    if k in a then a[k] else PNull
  }

  /** `empty($v)`: null, false, 0, 0.0, "", "0" and the empty array. */
  predicate IsEmpty(v: PhpValue) {
    match v
    case PNull => true
    case PBool(b) => !b
    case PInt(i) => i == 0
    case PFloat(f) => f == 0.0
    case PStr(s) => s == "" || s == "0"
    case PArr(m) => m == map[]
    case PObject => false
  }

  /** A value used as a condition, `if ($v)`: the opposite of `empty`. */
  predicate Truthy(v: PhpValue) {
    !IsEmpty(v)
  }

  /** `isset($a[$k])`: the key is present and its value is not null. */
  predicate IsSet(a: PhpArray, k: string) {
    k in a && a[k] != PNull
  }

  /** `empty($a[$k])`, which never complains about a missing key. */
  predicate IsEmptyAt(a: PhpArray, k: string) {
    IsEmpty(Lookup(a, k))
  }

  /** A `?string` seen as a PHP value. */
  function NullableString(s: Option<string>): (v: PhpValue)
    ensures v == PNull <==> s.None?
    ensures s.Some? ==> v == PStr(s.value)
  {
    match s
    case None => PNull
    case Some(t) => PStr(t)
  }

  /** Whether `prefix` starts `s` (`str_starts_with`). */
  predicate StartsWith(s: string, prefix: string) {
    |prefix| <= |s| && s[..|prefix|] == prefix
  }
}
