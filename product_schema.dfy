/**
 * The server-side product rule table (src/validations/productSchema.ts),
 * applied to the raw record the form normaliser produces.  zod's
 * `safeParse` either accepts (giving the typed, transformed record),
 * rejects with a map from field name to issues, or -- when one of the
 * transforms throws -- lets the exception escape; the last is `Raised`.
 */
module ProductSchema {
  import opened Wrappers
  import opened JsRuntime
  import opened ProductTypes
  import opened ProductFormUtils

  /** The kinds of issue zod reports for these rules. */
  datatype Issue =
    | Required                               // `undefined` where a value is required
    | InvalidType                            // a value of the wrong JavaScript type
    | TooShort(minimum: nat)
    | TooLong(maximum: nat)
    | NotANumber                             // `coerce.number()` produced NaN
    | BelowMinimum(bound: real, message: string)
    | InvalidEnum
    | InvalidUrl(message: string)
    | TooFewItems(fewest: nat, message: string)

  /** The outcome of one field's rule. */
  datatype Checked<T> = Passed(value: T) | Failed(issues: seq<Issue>)

  function IssuesOf<T>(c: Checked<T>): seq<Issue> {
    if c.Failed? then c.issues else []
  }

  // ---------------------------------------------------------------------
  // The rules, one by one

  /** The string is present and its length (`length`, in UTF-16 code units) lies in [min, max]. */
  predicate LengthIn(v: Scalar, min: nat, max: nat) {
    v.Str? && TextIn(v.s, min, max)
  }

  /** The length of `s` (in UTF-16 code units) lies in [min, max]. */
  predicate TextIn(s: string, min: nat, max: nat) {
    min <= Utf16Length(s) <= max
  }

  /** `z.string().min(min).max(max)`. */
  function CheckString(v: Scalar, min: nat, max: nat): (r: Checked<string>)
    requires min <= max
    ensures r.Passed? <==> LengthIn(v, min, max)
    ensures r.Passed? ==> r.value == v.s
    ensures r.Failed? ==> |r.issues| > 0
    ensures v.Undefined? ==> r == Failed([Required])
  {
    match v
    case Str(s) =>
      if Utf16Length(s) < min then Failed([TooShort(min)])
      else if Utf16Length(s) > max then Failed([TooLong(max)])
      else Passed(s)
    case Undefined => Failed([Required])
    case _ => Failed([InvalidType])
  }
  /**
   * Two emoji are four UTF-16 code units, so they meet a title's minimum of
   * 3, while two Latin letters fall short of it.
   */
  lemma AstralCharactersCountTwice()
    ensures CheckString(Str("\U{1F600}\U{1F600}"), 3, 100).Passed?
    ensures CheckString(Str("ab"), 3, 100) == Failed([TooShort(3)])
  {
    AstralLength("\U{1F600}\U{1F600}");
    BmpLength("ab");
  }


  /** `Number(v)`, as `z.coerce.number()` applies it; `None` is NaN. */
  function CoerceNumber(v: Scalar, env: Env): (r: Option<real>)
    ensures v.Null? ==> r == Some(0.0)
    ensures v.Undefined? || v.NaN? ==> r.None?
  {
    match v
    case Undefined => None
    case Null => Some(0.0)
    case Str(s) => env.numberOf(s)
    case Num(n) => Some(n)
    case NaN => None
    case Bool(b) => Some(if b then 1.0 else 0.0)
  }

  /** After coercion the value is a number at least `min`. */
  predicate NumberAtLeast(v: Scalar, min: real, env: Env) {
    CoerceNumber(v, env).Some? && CoerceNumber(v, env).value >= min
  }

  /** `z.coerce.number().min(min, message)`. */
  function CheckNumberMin(v: Scalar, min: real, message: string, env: Env): (r: Checked<real>)
    ensures r.Passed? <==> NumberAtLeast(v, min, env)
    ensures r.Passed? ==> r.value == CoerceNumber(v, env).value
    ensures r.Failed? ==> |r.issues| > 0
  {
    match CoerceNumber(v, env)
    case None => Failed([NotANumber])
    case Some(x) => if x < min then Failed([BelowMinimum(min, message)]) else Passed(x)
  }

  /** `z.nativeEnum(Category)`: only the enum's string values are accepted. */
  function CheckCategory(v: Scalar): (r: Checked<Category>)
    ensures r.Passed? <==> v.Str? && exists c: Category :: c.Value() == v.s
    ensures r.Passed? ==> r.value.Value() == v.s
    ensures r.Failed? ==> |r.issues| > 0
  {
    match v
    case Str(s) =>
      (match CategoryFromValue(s)
       case Some(c) => Passed(c)
       case None => Failed([InvalidEnum]))
    case Undefined => Failed([Required])
    case _ => Failed([InvalidType])
  }

  function CheckAvailability(v: Scalar): (r: Checked<AvailabilityStatus>)
    ensures r.Passed? <==> v.Str? && exists a: AvailabilityStatus :: a.Value() == v.s
    ensures r.Passed? ==> r.value.Value() == v.s
    ensures r.Failed? ==> |r.issues| > 0
  {
    match v
    case Str(s) =>
      (match AvailabilityFromValue(s)
       case Some(a) => Passed(a)
       case None => Failed([InvalidEnum]))
    case Undefined => Failed([Required])
    case _ => Failed([InvalidType])
  }

  function CheckReturnPolicy(v: Scalar): (r: Checked<ReturnPolicy>)
    ensures r.Passed? <==> v.Str? && exists p: ReturnPolicy :: p.Value() == v.s
    ensures r.Passed? ==> r.value.Value() == v.s
    ensures r.Failed? ==> |r.issues| > 0
  {
    match v
    case Str(s) =>
      (match ReturnPolicyFromValue(s)
       case Some(p) => Passed(p)
       case None => Failed([InvalidEnum]))
    case Undefined => Failed([Required])
    case _ => Failed([InvalidType])
  }

  /** `z.array(z.string().url("Must be a valid URL")).min(1, "At least one image is required")`. */
  function CheckImages(images: seq<string>, env: Env): (r: Checked<seq<string>>)
    ensures r.Passed? <==> |images| >= 1 && forall i :: 0 <= i < |images| ==> env.isUrl(images[i])
    ensures r.Passed? ==> r.value == images
    ensures r.Failed? ==> |r.issues| > 0
  {
    if |images| < 1 then Failed([TooFewItems(1, "At least one image is required")])
    else
      var bad := UrlIssues(images, env);
      if bad == [] then Passed(images) else Failed(bad)
  }

  /** One issue per element that is not a valid URL. */
  function UrlIssues(images: seq<string>, env: Env): (r: seq<Issue>)
    ensures r == [] <==> forall i :: 0 <= i < |images| ==> env.isUrl(images[i])
  {
    if images == [] then []
    else (if env.isUrl(images[0]) then [] else [InvalidUrl("Must be a valid URL")]) + UrlIssues(images[1..], env)
  }

  /** The result of a `.transform(...)` closure: a value (possibly `undefined`) or a thrown `Error`. */
  datatype Transformed<T> = Produced(value: Option<T>) | Threw(message: string)

  /** The discount transform throws exactly for a parsed number outside [0, 100]. */
  predicate DiscountThrows(o: Option<string>, env: Env) {
    o.Some? && o.value != "" && env.parseFloat(o.value).Some?
    && (env.parseFloat(o.value).value < 0.0 || env.parseFloat(o.value).value > 100.0)
  }

  /** The `discountPercentage` transform. */
  function DiscountTransform(o: Option<string>, env: Env): (r: Transformed<real>)
    ensures r.Threw? <==> DiscountThrows(o, env)
    ensures r.Threw? ==> r.message == "Discount percentage must be between 0 and 100"
    ensures (o.None? || o.value == "" || env.parseFloat(o.value).None?) ==> r == Produced(None)
    ensures r.Produced? && r.value.Some? ==>
              o.Some? && env.parseFloat(o.value) == r.value && 0.0 <= r.value.value <= 100.0
    ensures o.Some? && o.value != "" && env.parseFloat(o.value).Some? && 0.0 <= env.parseFloat(o.value).value <= 100.0 ==>
              r == Produced(env.parseFloat(o.value))
  {
    match o
    case None => Produced(None)
    case Some(val) =>
      if val == "" then Produced(None)
      else
        match env.parseFloat(val)
        case None => Produced(None)
        case Some(num) =>
          if num < 0.0 || num > 100.0 then Threw("Discount percentage must be between 0 and 100")
          else Produced(Some(num))
  }

  /** The material/color transform throws exactly for a non-blank string whose length is outside [2, 50]. */
  predicate OptionalTextThrows(o: Option<string>) {
    o.Some? && !IsBlank(o.value) && !(2 <= Utf16Length(o.value) <= 50)
  }

  /** The `material` and `color` transforms (`fieldName` is "Material" or "Color"). */
  function OptionalTextTransform(o: Option<string>, fieldName: string): (r: Transformed<string>)
    ensures r.Threw? <==> OptionalTextThrows(o)
    ensures (o.None? || IsBlank(o.value)) ==> r == Produced(None)
    ensures r.Produced? && r.value.Some? ==> r.value == o && 2 <= Utf16Length(o.value) <= 50 && !IsBlank(o.value)
    ensures o.Some? && !IsBlank(o.value) && 2 <= Utf16Length(o.value) <= 50 ==> r == Produced(o)
    ensures r.Threw? && Utf16Length(o.value) < 2 ==> r.message == fieldName + " must be at least 2 characters"
    ensures r.Threw? && Utf16Length(o.value) > 50 ==> r.message == fieldName + " must be at most 50 characters"
  {
    match o
    case None => Produced(None)
    case Some(val) =>
      if val == "" || IsBlank(val) then Produced(None)
      else if Utf16Length(val) < 2 then Threw(fieldName + " must be at least 2 characters")
      else if Utf16Length(val) > 50 then Threw(fieldName + " must be at most 50 characters")
      else Produced(Some(val))
  }

  /** The `packQuantity` and `pageCount` transforms: never throw, keep only an integer >= 1. */
  function PositiveIntTransform(o: Option<string>, env: Env): (r: Option<int>)
    ensures r.Some? <==> o.Some? && o.value != "" && env.parseInt(o.value).Some? && env.parseInt(o.value).value >= 1
    ensures r.Some? ==> r == env.parseInt(o.value) && r.value >= 1
  {
    match o
    case None => None
    case Some(val) =>
      if val == "" then None
      else
        match env.parseInt(val)
        case None => None
        case Some(num) => if num < 1 then None else Some(num)
  }

  // ---------------------------------------------------------------------
  // The whole table

  /** The typed record `productSchema` produces (unknown keys such as `id` and `tags` are stripped). */
  datatype ValidProduct = ValidProduct(
    title: string,
    description: string,
    category: Category,
    price: real,
    discountPercentage: Option<real>,
    stock: real,
    brand: string,
    weight: real,
    dimensions: Dimensions,
    material: Option<string>,
    color: Option<string>,
    packQuantity: Option<int>,
    pageCount: Option<int>,
    warrantyInformation: string,
    shippingInformation: string,
    availabilityStatus: AvailabilityStatus,
    returnPolicy: ReturnPolicy,
    minimumOrderQuantity: real,
    images: seq<string>,
    meta: RawMeta)

  datatype Outcome =
    | Accepted(product: ValidProduct)
    | Rejected(errors: map<string, seq<Issue>>)
    | Raised(message: string)

  /** What every accepted record satisfies. */
  predicate ProductInvariant(p: ValidProduct, env: Env) {
    && TextIn(p.title, 3, 100)
    && TextIn(p.description, 50, 500)
    && TextIn(p.brand, 2, 50)
    && TextIn(p.warrantyInformation, 2, 100)
    && TextIn(p.shippingInformation, 2, 100)
    && p.price >= 0.01 && p.weight >= 0.01 && p.stock >= 0.0 && p.minimumOrderQuantity >= 1.0
    && p.dimensions.width >= 0.01 && p.dimensions.height >= 0.01 && p.dimensions.depth >= 0.01
    && (p.discountPercentage.Some? ==> 0.0 <= p.discountPercentage.value <= 100.0)
    && (p.material.Some? ==> TextIn(p.material.value, 2, 50) && !IsBlank(p.material.value))
    && (p.color.Some? ==> TextIn(p.color.value, 2, 50) && !IsBlank(p.color.value))
    && (p.packQuantity.Some? ==> p.packQuantity.value >= 1)
    && (p.pageCount.Some? ==> p.pageCount.value >= 1)
    && |p.images| >= 1 && (forall i :: 0 <= i < |p.images| ==> env.isUrl(p.images[i]))
  }

  predicate IsCategoryValue(v: Scalar) { v.Str? && exists c: Category :: c.Value() == v.s }
  predicate IsAvailabilityValue(v: Scalar) { v.Str? && exists a: AvailabilityStatus :: a.Value() == v.s }
  predicate IsReturnPolicyValue(v: Scalar) { v.Str? && exists p: ReturnPolicy :: p.Value() == v.s }
  predicate ImagesOk(images: seq<string>, env: Env) {
    |images| >= 1 && forall i :: 0 <= i < |images| ==> env.isUrl(images[i])
  }

  /** Some transform throws. */
  predicate Throws(raw: RawProductFormData, env: Env) {
    DiscountThrows(raw.discountPercentage, env) || OptionalTextThrows(raw.material) || OptionalTextThrows(raw.color)
  }

  /** The number of keys with a rule that can report issues (the transformed keys never do). */
  const FieldCount: nat := 14

  /** The key of rule number i, in the schema's declaration order. */
  function FieldName(i: nat): string {
    match i
    case 0 => "title"
    case 1 => "description"
    case 2 => "category"
    case 3 => "price"
    case 4 => "stock"
    case 5 => "brand"
    case 6 => "weight"
    case 7 => "dimensions"
    case 8 => "warrantyInformation"
    case 9 => "shippingInformation"
    case 10 => "availabilityStatus"
    case 11 => "returnPolicy"
    case 12 => "minimumOrderQuantity"
    case 13 => "images"
    case _ => ""
  }

  /** Rule number i, stated on the raw record. */
  predicate RuleHolds(raw: RawProductFormData, env: Env, i: nat) {
    match i
    case 0 => LengthIn(raw.title, 3, 100)
    case 1 => LengthIn(raw.description, 50, 500)
    case 2 => IsCategoryValue(raw.category)
    case 3 => NumberAtLeast(raw.price, 0.01, env)
    case 4 => NumberAtLeast(raw.stock, 0.0, env)
    case 5 => LengthIn(raw.brand, 2, 50)
    case 6 => NumberAtLeast(raw.weight, 0.01, env)
    case 7 => NumberAtLeast(raw.dimensions.width, 0.01, env) && NumberAtLeast(raw.dimensions.height, 0.01, env)
              && NumberAtLeast(raw.dimensions.depth, 0.01, env)
    case 8 => LengthIn(raw.warrantyInformation, 2, 100)
    case 9 => LengthIn(raw.shippingInformation, 2, 100)
    case 10 => IsAvailabilityValue(raw.availabilityStatus)
    case 11 => IsReturnPolicyValue(raw.returnPolicy)
    case 12 => NumberAtLeast(raw.minimumOrderQuantity, 1.0, env)
    case _ => ImagesOk(raw.images, env)
  }

  /** Every rule holds: the raw record is acceptable apart from the transforms. */
  predicate Admissible(raw: RawProductFormData, env: Env) {
    && LengthIn(raw.title, 3, 100)
    && LengthIn(raw.description, 50, 500)
    && IsCategoryValue(raw.category)
    && NumberAtLeast(raw.price, 0.01, env)
    && NumberAtLeast(raw.stock, 0.0, env)
    && LengthIn(raw.brand, 2, 50)
    && NumberAtLeast(raw.weight, 0.01, env)
    && NumberAtLeast(raw.dimensions.width, 0.01, env)
    && NumberAtLeast(raw.dimensions.height, 0.01, env)
    && NumberAtLeast(raw.dimensions.depth, 0.01, env)
    && LengthIn(raw.warrantyInformation, 2, 100)
    && LengthIn(raw.shippingInformation, 2, 100)
    && IsAvailabilityValue(raw.availabilityStatus)
    && IsReturnPolicyValue(raw.returnPolicy)
    && NumberAtLeast(raw.minimumOrderQuantity, 1.0, env)
    && ImagesOk(raw.images, env)
  }

  /** The conjunction is the table: a raw record is admissible exactly when each numbered rule holds. */
  lemma AdmissibleIffEveryRule(raw: RawProductFormData, env: Env)
    ensures Admissible(raw, env) <==> forall i :: 0 <= i < FieldCount ==> RuleHolds(raw, env, i)
  {
    if Admissible(raw, env) {
      forall i | 0 <= i < FieldCount ensures RuleHolds(raw, env, i) {
        if i <= 6 {} else {}
      }
    }
    if forall i :: 0 <= i < FieldCount ==> RuleHolds(raw, env, i) {
      assert RuleHolds(raw, env, 0) && RuleHolds(raw, env, 1) && RuleHolds(raw, env, 2) && RuleHolds(raw, env, 3);
      assert RuleHolds(raw, env, 4) && RuleHolds(raw, env, 5) && RuleHolds(raw, env, 6) && RuleHolds(raw, env, 7);
      assert RuleHolds(raw, env, 8) && RuleHolds(raw, env, 9) && RuleHolds(raw, env, 10) && RuleHolds(raw, env, 11);
      assert RuleHolds(raw, env, 12) && RuleHolds(raw, env, 13);
    }
  }

  /** The field names whose rule the raw record breaks. */
  function FailingFields(raw: RawProductFormData, env: Env): set<string> {
    set i | 0 <= i < FieldCount && !RuleHolds(raw, env, i) :: FieldName(i)
  }

  /** The issues rule number i reports, with the schema's messages. */
  function IssuesAt(raw: RawProductFormData, env: Env, i: nat): seq<Issue> {
    match i
    case 0 => IssuesOf(CheckString(raw.title, 3, 100))
    case 1 => IssuesOf(CheckString(raw.description, 50, 500))
    case 2 => IssuesOf(CheckCategory(raw.category))
    case 3 => IssuesOf(CheckNumberMin(raw.price, 0.01, "Price must be greater than 0", env))
    case 4 => IssuesOf(CheckNumberMin(raw.stock, 0.0, "Stock must be 0 or more", env))
    case 5 => IssuesOf(CheckString(raw.brand, 2, 50))
    case 6 => IssuesOf(CheckNumberMin(raw.weight, 0.01, "Weight must be positive", env))
    case 7 => DimensionIssues(raw.dimensions, env)
    case 8 => IssuesOf(CheckString(raw.warrantyInformation, 2, 100))
    case 9 => IssuesOf(CheckString(raw.shippingInformation, 2, 100))
    case 10 => IssuesOf(CheckAvailability(raw.availabilityStatus))
    case 11 => IssuesOf(CheckReturnPolicy(raw.returnPolicy))
    case 12 => IssuesOf(CheckNumberMin(raw.minimumOrderQuantity, 1.0, "Minimum order is 1", env))
    case _ => IssuesOf(CheckImages(raw.images, env))
  }

  /** The nested `dimensions` object's issues, width then height then depth. */
  function DimensionIssues(d: RawDimensions, env: Env): (r: seq<Issue>)
    ensures |r| > 0 <==> !(NumberAtLeast(d.width, 0.01, env) && NumberAtLeast(d.height, 0.01, env)
                            && NumberAtLeast(d.depth, 0.01, env))
  {
    IssuesOf(CheckNumberMin(d.width, 0.01, "Width must be positive", env))
    + IssuesOf(CheckNumberMin(d.height, 0.01, "Height must be positive", env))
    + IssuesOf(CheckNumberMin(d.depth, 0.01, "Depth must be positive", env))
  }

  /** A rule reports issues exactly when it is broken. */
  lemma IssuesIffBroken(raw: RawProductFormData, env: Env, i: nat)
    requires i < FieldCount
    ensures |IssuesAt(raw, env, i)| > 0 <==> !RuleHolds(raw, env, i)
  {
    if i <= 6 {} else {}
  }

  /** The per-field issue lists in the schema's declaration order. */
  function FieldIssues(raw: RawProductFormData, env: Env): (r: seq<(string, seq<Issue>)>)
    ensures |r| == FieldCount && forall i :: 0 <= i < |r| ==> r[i] == (FieldName(i), IssuesAt(raw, env, i))
  {
    seq(FieldCount, i requires 0 <= i < FieldCount => (FieldName(i), IssuesAt(raw, env, i)))
  }

  /** `error.flatten().fieldErrors`: one entry per field that has issues. */
  function ErrorMap(fields: seq<(string, seq<Issue>)>): (m: map<string, seq<Issue>>)
    ensures forall k :: k in m <==> exists i :: 0 <= i < |fields| && fields[i].0 == k && |fields[i].1| > 0
    ensures forall k :: k in m ==> |m[k]| > 0
  {
    if fields == [] then map[]
    else
      var rest := ErrorMap(fields[1..]);
      assert forall i :: 1 <= i < |fields| ==> fields[i] == fields[1..][i - 1];
      if |fields[0].1| > 0 then rest[fields[0].0 := fields[0].1] else rest
  }

  /** The issue list of a field is non-empty exactly when the field breaks its rule. */
  lemma FieldIssuesMatchRules(raw: RawProductFormData, env: Env)
    ensures forall i :: 0 <= i < FieldCount ==>
              FieldIssues(raw, env)[i].0 == FieldName(i)
              && (|FieldIssues(raw, env)[i].1| > 0 <==> !RuleHolds(raw, env, i))
  {
    forall i | 0 <= i < FieldCount
      ensures |FieldIssues(raw, env)[i].1| > 0 <==> !RuleHolds(raw, env, i)
    {
      IssuesIffBroken(raw, env, i);
    }
  }

  /** No field fails exactly when every rule holds. */
  lemma NoFailingFieldsIffAdmissible(raw: RawProductFormData, env: Env)
    ensures FailingFields(raw, env) == {} <==> Admissible(raw, env)
  {
    AdmissibleIffEveryRule(raw, env);
    if !Admissible(raw, env) {
      var i :| 0 <= i < FieldCount && !RuleHolds(raw, env, i);
      assert FieldName(i) in FailingFields(raw, env);
    }
  }

  /** The failing fields are exactly the keys of the flattened error map. */
  lemma ErrorKeysAreFailingFields(raw: RawProductFormData, env: Env)
    ensures ErrorMap(FieldIssues(raw, env)).Keys == FailingFields(raw, env)
  {
    FieldIssuesMatchRules(raw, env);
    var f := FieldIssues(raw, env);
    var m := ErrorMap(f);
    forall k ensures k in m <==> k in FailingFields(raw, env) {
      if k in m {
        var i :| 0 <= i < |f| && f[i].0 == k && |f[i].1| > 0;
        assert !RuleHolds(raw, env, i);
      }
      if k in FailingFields(raw, env) {
        var i :| 0 <= i < FieldCount && !RuleHolds(raw, env, i) && FieldName(i) == k;
        assert f[i].0 == k && |f[i].1| > 0;
      }
    }
  }

  /** The typed record an admissible, non-throwing raw record is turned into. */
  function Transform(raw: RawProductFormData, env: Env): (p: ValidProduct)
    requires Admissible(raw, env) && !Throws(raw, env)
    ensures ProductInvariant(p, env)
    ensures p.title == raw.title.s && p.description == raw.description.s
    ensures p.brand == raw.brand.s && p.images == raw.images
    ensures p.category.Value() == raw.category.s
    ensures p.availabilityStatus.Value() == raw.availabilityStatus.s
    ensures p.returnPolicy.Value() == raw.returnPolicy.s
    ensures p.material == NonBlank(raw.material) && p.color == NonBlank(raw.color)
    ensures p.packQuantity == PositiveIntTransform(raw.packQuantity, env)
    ensures p.pageCount == PositiveIntTransform(raw.pageCount, env)
    ensures p.discountPercentage ==
              if raw.discountPercentage.Some? && raw.discountPercentage.value != "" then env.parseFloat(raw.discountPercentage.value) else None
    ensures Some(p.price) == CoerceNumber(raw.price, env) && Some(p.stock) == CoerceNumber(raw.stock, env)
    ensures Some(p.weight) == CoerceNumber(raw.weight, env)
    ensures Some(p.minimumOrderQuantity) == CoerceNumber(raw.minimumOrderQuantity, env)
  {
    ValidProduct(
      title := raw.title.s,
      description := raw.description.s,
      category := CheckCategory(raw.category).value,
      price := CoerceNumber(raw.price, env).value,
      discountPercentage := DiscountTransform(raw.discountPercentage, env).value,
      stock := CoerceNumber(raw.stock, env).value,
      brand := raw.brand.s,
      weight := CoerceNumber(raw.weight, env).value,
      dimensions := Dimensions(
        CoerceNumber(raw.dimensions.width, env).value,
        CoerceNumber(raw.dimensions.height, env).value,
        CoerceNumber(raw.dimensions.depth, env).value),
      material := OptionalTextTransform(raw.material, "Material").value,
      color := OptionalTextTransform(raw.color, "Color").value,
      packQuantity := PositiveIntTransform(raw.packQuantity, env),
      pageCount := PositiveIntTransform(raw.pageCount, env),
      warrantyInformation := raw.warrantyInformation.s,
      shippingInformation := raw.shippingInformation.s,
      availabilityStatus := CheckAvailability(raw.availabilityStatus).value,
      returnPolicy := CheckReturnPolicy(raw.returnPolicy).value,
      minimumOrderQuantity := CoerceNumber(raw.minimumOrderQuantity, env).value,
      images := raw.images,
      meta := raw.meta)
  }

  /** `productSchema.safeParse(raw)`. */
  function Validate(raw: RawProductFormData, env: Env): (r: Outcome)
    ensures r.Raised? <==> Throws(raw, env)
    ensures r.Accepted? <==> !Throws(raw, env) && Admissible(raw, env)
    ensures r.Rejected? ==> r.errors.Keys == FailingFields(raw, env) && forall k :: k in r.errors ==> |r.errors[k]| > 0
    ensures r.Raised? && DiscountThrows(raw.discountPercentage, env) ==>
              r.message == "Discount percentage must be between 0 and 100"
    ensures r.Accepted? ==> ProductInvariant(r.product, env) && r.product == Transform(raw, env)
  {
    var discount := DiscountTransform(raw.discountPercentage, env);
    var material := OptionalTextTransform(raw.material, "Material");
    var color := OptionalTextTransform(raw.color, "Color");
    if discount.Threw? then Raised(discount.message)
    else if material.Threw? then Raised(material.message)
    else if color.Threw? then Raised(color.message)
    else if Admissible(raw, env) then Accepted(Transform(raw, env))
    else
      ErrorKeysAreFailingFields(raw, env);
      NoFailingFieldsIffAdmissible(raw, env);
      Rejected(ErrorMap(FieldIssues(raw, env)))
  }

  /** `editProductSchema` is the same table: edit validation equals create validation. */
  function ValidateEdit(raw: RawProductFormData, env: Env): (r: Outcome)
    ensures r == Validate(raw, env)
  {
    Validate(raw, env)
  }
}
