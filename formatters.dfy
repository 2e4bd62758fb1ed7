/**
 * The display formatters (src/utils/formatters.ts).  A formatter that
 * tests `typeof x === "number"` takes a scalar JavaScript value, so that
 * `NaN` counts as a number; one that takes `any` takes a JSON-like value.
 */
module Formatters {
  import opened Wrappers
  import opened JsRuntime
  import opened Json

  /** `typeof v === "number"`: a finite number or `NaN`. */
  predicate IsNumber(v: Scalar) {
    v.Num? || v.NaN?
  }

  /** `formatPrice`: "$" and two decimals for a number, "N/A" otherwise (`NaN.toFixed(2)` is "NaN"). */
  function FormatPrice(v: Scalar, env: Env): (r: string)
    ensures v.Num? ==> r == "$" + env.fixed2(v.n)
  {
    match v
    case Num(n) => "$" + env.fixed2(n)
    case NaN => "$NaN"
    case _ => "N/A"
  }

  /** A price is "N/A" exactly when it is not a number, and otherwise starts with "$". */
  lemma PriceShape(v: Scalar, env: Env)
    ensures FormatPrice(v, env) == "N/A" <==> !IsNumber(v)
    ensures IsNumber(v) ==> |FormatPrice(v, env)| > 0 && FormatPrice(v, env)[0] == '$'
  {
    if IsNumber(v) {
      assert FormatPrice(v, env)[0] != "N/A"[0];
    }
  }

  /** `formatPercentage`: the number followed by "%", or "0%". */
  function FormatPercentage(v: Scalar, env: Env): (r: string)
    ensures |r| > 0 && r[|r| - 1] == '%'
    ensures !IsNumber(v) ==> r == "0%"
    ensures v.Num? ==> r == env.numberText(v.n) + "%"
  {
    match v
    case Num(n) => env.numberText(n) + "%"
    case NaN => "NaN%"
    case _ => "0%"
  }

  /** `formatNumber`: the number's text, or "N/A". */
  function FormatNumber(v: Scalar, env: Env): (r: string)
    ensures !IsNumber(v) ==> r == "N/A"
    ensures v.Num? ==> r == env.numberText(v.n)
  {
    match v
    case Num(n) => env.numberText(n)
    case NaN => "NaN"
    case _ => "N/A"
  }
  /** A number's percentage is its `formatNumber` text followed by "%"; anything else gives "0%" where `formatNumber` gives "N/A". */
  lemma PercentageOfNumber(v: Scalar, env: Env)
    ensures IsNumber(v) ==> FormatPercentage(v, env) == FormatNumber(v, env) + "%"
    ensures !IsNumber(v) ==> FormatPercentage(v, env) == "0%" && FormatNumber(v, env) == "N/A"
  {
  }


  /**
   * `String(v)` for a value a template literal or `toString` prints:
   * arrays join their elements with "," (with "" for `null` and
   * `undefined`), plain objects print "[object Object]", and a store
   * timestamp prints its two fields.
   */
  function ValueText(v: Value, env: Env): string
    decreases v, 1
  {
    match v
    case Undef => "undefined"
    case Nil => "null"
    case Prim(p) => PrimText(p, env)
    case Ts(s, n) => "Timestamp(seconds=" + env.numberText(s as real) + ", nanoseconds=" + env.numberText(n as real) + ")"
    case Arr(xs) => Joined(xs, env)
    case Obj(_) => "[object Object]"
  }

  function PrimText(p: Prim, env: Env): string {
    match p
    case PStr(s) => s
    case PNum(n) => env.numberText(n)
    case PBool(b) => if b then "true" else "false"
  }

  /** `Array.prototype.join(",")`. */
  function Joined(xs: seq<Value>, env: Env): string
    decreases xs, 0
  {
    if xs == [] then ""
    else if |xs| == 1 then ElementText(xs[0], env)
    else ElementText(xs[0], env) + "," + Joined(xs[1..], env)
  }

  function ElementText(x: Value, env: Env): string
    decreases x, 2
  {
    if x.Undef? || x.Nil? then "" else ValueText(x, env)
  }

  /** `${side ?? "N/A"}`; a missing key reads as `undefined`. */
  function SideText(side: Option<Value>, env: Env): (r: string)
    ensures side.None? || side.value.Undef? || side.value.Nil? ==> r == "N/A"
  {
    match side
    case None => "N/A"
    case Some(v) => if v.Undef? || v.Nil? then "N/A" else ValueText(v, env)
  }

  /** `typeof d === "object" && d?.width !== undefined`: a plain object with a defined width. */
  predicate HasWidth(d: Value) {
    d.Obj? && Lookup(d.members, "width").Some? && !Lookup(d.members, "width").value.Undef?
  }

  /** The template "W: …cm, H: …cm, D: …cm". */
  function DimensionsPattern(w: string, h: string, d: string): string {
    "W: " + w + "cm, H: " + h + "cm, D: " + d + "cm"
  }

  /** `formatDimensions`. */
  function FormatDimensions(d: Value, env: Env): (r: string)
    ensures !HasWidth(d) ==> r == "N/A"
    ensures HasWidth(d) ==> r == DimensionsPattern(SideText(Lookup(d.members, "width"), env),
                                                   SideText(Lookup(d.members, "height"), env),
                                                   SideText(Lookup(d.members, "depth"), env))
  {
    if HasWidth(d) then
      DimensionsPattern(SideText(Lookup(d.members, "width"), env), SideText(Lookup(d.members, "height"), env),
                        SideText(Lookup(d.members, "depth"), env))
    else "N/A"
  }

  /** The pattern starts with "W: " and ends with "cm". */
  lemma PatternShape(w: string, h: string, d: string)
    ensures var r := DimensionsPattern(w, h, d); |r| >= 5 && r[..3] == "W: " && r[|r| - 2..] == "cm"
  {
    var r := DimensionsPattern(w, h, d);
    var middle := w + "cm, H: " + h + "cm, D: " + d;
    assert r == "W: " + middle + "cm";
  }

  /**
   * The dimensions pattern is used exactly for an object with a defined
   * width: it then starts with "W: " and ends with "cm"; otherwise the
   * result is "N/A".  A missing or nullish side prints as "N/A".
   */
  lemma DimensionsShape(d: Value, env: Env)
    ensures HasWidth(d) <==> |FormatDimensions(d, env)| >= 3 && FormatDimensions(d, env)[..3] == "W: "
    ensures HasWidth(d) ==> FormatDimensions(d, env)[|FormatDimensions(d, env)| - 2..] == "cm"
  {
    if HasWidth(d) {
      PatternShape(SideText(Lookup(d.members, "width"), env), SideText(Lookup(d.members, "height"), env),
                   SideText(Lookup(d.members, "depth"), env));
    } else {
      assert FormatDimensions(d, env)[..3] == "N/A";
    }
  }

  /** `value === null || value === undefined || value === ""`. */
  predicate IsBlankValue(v: Value) {
    v.Undef? || v.Nil? || v == Prim(PStr(""))
  }

  /** `formatText`: "N/A" for `null`, `undefined` and "", the value's text otherwise. */
  function FormatText(v: Value, env: Env): (r: string)
    ensures IsBlankValue(v) ==> r == "N/A"
    ensures !IsBlankValue(v) ==> r == ValueText(v, env)
  {
    if IsBlankValue(v) then "N/A" else ValueText(v, env)
  }

  /** A non-empty string is printed as it is, so "N/A" comes out exactly for a blank value or the text "N/A" itself. */
  lemma TextShape(s: string, env: Env)
    ensures s != "" ==> FormatText(Prim(PStr(s)), env) == s
    ensures FormatText(Prim(PStr(s)), env) == "N/A" <==> s == "" || s == "N/A"
  {
  }

  /** `calculateDiscountedPrice`; `None` for a discount that is `undefined` or `NaN` (both falsy). */
  function DiscountedPrice(price: real, discount: Option<real>): (r: real)
    ensures discount.None? || discount.value <= 0.0 ==> r == price
  {
    if discount.Some? && discount.value > 0.0 then price * (1.0 - discount.value / 100.0) else price
  }

  /** For a price of at least 0 and a discount in (0, 100], the result lies between 0 and the price. */
  lemma DiscountBounds(price: real, d: real)
    requires price >= 0.0 && 0.0 < d <= 100.0
    ensures 0.0 <= DiscountedPrice(price, Some(d)) <= price
    ensures d == 100.0 ==> DiscountedPrice(price, Some(d)) == 0.0
  {
    var f := 1.0 - d / 100.0;
    assert 0.0 <= f < 1.0;
    assert price * f <= price * 1.0 by { MulMonotone(price, f, 1.0); }
    assert 0.0 <= price * f by { MulMonotone(price, 0.0, f); }
  }

  /** A larger discount never gives a higher price. */
  lemma DiscountMonotone(price: real, d1: real, d2: real)
    requires price >= 0.0 && 0.0 < d1 <= d2
    ensures DiscountedPrice(price, Some(d2)) <= DiscountedPrice(price, Some(d1))
  {
    MulMonotone(price, 1.0 - d2 / 100.0, 1.0 - d1 / 100.0);
  }

  lemma MulMonotone(p: real, a: real, b: real)
    requires p >= 0.0 && a <= b
    ensures p * a <= p * b
  {
    assert p * b - p * a == p * (b - a);
  }

  /** `getProductDisplayTitle`: the brand, ". ", then the title. */
  function DisplayTitle(brand: string, title: string): (r: string)
    ensures |r| == |brand| + 2 + |title|
  {
    brand + ". " + title
  }

  /** The brand and the title can be read back from the display title. */
  lemma DisplayTitleParts(brand: string, title: string)
    ensures DisplayTitle(brand, title)[..|brand|] == brand
    ensures DisplayTitle(brand, title)[|brand|..|brand| + 2] == ". "
    ensures DisplayTitle(brand, title)[|brand| + 2..] == title
  {
    var r := DisplayTitle(brand, title);
    assert r == (brand + ". ") + title;
  }
}
