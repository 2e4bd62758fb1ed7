/**
 * The few JavaScript runtime notions the storefront code relies on:
 * dynamically typed scalar values, truthiness and nullishness, conversion
 * to string, and the whitespace class used by `trim` and by the regular
 * expression `\s`.  Number parsing and number printing are not modelled
 * digit by digit; they are the fields of an `Env` passed to every
 * operation that needs them.
 */
module JsRuntime {
  import opened Wrappers

  /** A scalar JavaScript value as it reaches the form code. `NaN` is kept apart from `Num`. */
  datatype Scalar =
    | Undefined
    | Null
    | Str(s: string)
    | Num(n: real)
    | NaN
    | Bool(b: bool)

  /**
   * The runtime primitives left abstract.  A parse that yields `NaN` is `None`.
   *   numberOf    -- `Number(s)` for a string s (also used by zod's `coerce.number`)
   *   parseFloat  -- `parseFloat(s)`
   *   parseInt    -- `parseInt(s)`
   *   numberText  -- `String(n)` for a finite number n
   *   fixed2      -- `n.toFixed(2)`
   *   isUrl       -- zod's `string().url()` check
   *   isTag       -- membership in the `Tag` enum
   *   isoString   -- `Timestamp.toDate().toISOString()` for (seconds, nanoseconds)
   */
  datatype Env = Env(
    numberOf: string -> Option<real>,
    parseFloat: string -> Option<real>,
    parseInt: string -> Option<int>,
    numberText: real -> string,
    fixed2: real -> string,
    isUrl: string -> bool,
    isTag: string -> bool,
    isoString: (int, int) -> string)

  /** `undefined` and `null`, the values `??` and `?.` skip. */
  predicate Nullish(v: Scalar) {
    v.Undefined? || v.Null?
  }

  /** JavaScript truthiness: `""`, `0`, `NaN`, `false`, `null` and `undefined` are falsy. */
  predicate Truthy(v: Scalar) {
    match v
    case Str(s) => s != ""
    case Num(n) => n != 0.0
    case Bool(b) => b
    case _ => false
  }

  /** `String(v)`. */
  function StringOf(v: Scalar, env: Env): string {
    match v
    case Undefined => "undefined"
    case Null => "null"
    case Str(s) => s
    case Num(n) => env.numberText(n)
    case NaN => "NaN"
    case Bool(b) => if b then "true" else "false"
  }

  /** `a ?? b`. */
  function Coalesce(a: Scalar, b: Scalar): (r: Scalar)
    ensures !Nullish(a) ==> r == a
    ensures Nullish(a) ==> r == b
  {
    if Nullish(a) then b else a
  }

  /**
   * `s.length`: the number of UTF-16 code units, where a character outside
   * the Basic Multilingual Plane is a surrogate pair and counts twice.
   */
  function Utf16Length(s: string): nat {
    if s == [] then 0 else (if s[0] as int >= 0x1_0000 then 2 else 1) + Utf16Length(s[1..])
  }

  /** A string has at least one and at most two code units per character. */
  lemma {:induction false} Utf16Bounds(s: string)
    ensures |s| <= Utf16Length(s) <= 2 * |s|
  {
    if s != [] {
      Utf16Bounds(s[1..]);
    }
  }

  /** A string of Basic Multilingual Plane characters has as many code units as characters. */
  lemma {:induction false} BmpLength(s: string)
    requires forall i :: 0 <= i < |s| ==> s[i] as int < 0x1_0000
    ensures Utf16Length(s) == |s|
  {
    if s != [] {
      assert s[0] as int < 0x1_0000;
      BmpLength(s[1..]);
    }
  }

  /** Each character outside the Basic Multilingual Plane adds one code unit beyond the character count. */
  lemma {:induction false} AstralLength(s: string)
    requires forall i :: 0 <= i < |s| ==> s[i] as int >= 0x1_0000
    ensures Utf16Length(s) == 2 * |s|
  {
    if s != [] {
      AstralLength(s[1..]);
    }
  }

  /** The characters ECMAScript counts as WhiteSpace or LineTerminator (`trim`, `\s`). */
  predicate IsSpace(c: char) {
    c == ' ' || c == '\t' || c == '\n' || c == '\r' || c == '\U{000B}' || c == '\U{000C}'
    || c == '\U{00A0}' || c == '\U{1680}' || ('\U{2000}' <= c <= '\U{200A}')
    || c == '\U{2028}' || c == '\U{2029}' || c == '\U{202F}' || c == '\U{205F}'
    || c == '\U{3000}' || c == '\U{FEFF}'
  }

  /** `s.trim() === ""`: the string holds whitespace only (or nothing). */
  predicate IsBlank(s: string) {
    forall i :: 0 <= i < |s| ==> IsSpace(s[i])
  }
}
