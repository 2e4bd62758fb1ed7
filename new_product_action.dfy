/**
 * The older create action (src/app/actions/admin/products.ts): its own rule
 * table `newProductSchema`, the record it builds from the submitted
 * FormData, and the form state it answers with.  The store write is a
 * parameter: whether `addDoc`/`setDoc` succeeded.
 */
module NewProductAction {
  import opened Wrappers
  import opened JsRuntime
  import opened FormDataModel
  import opened ProductTypes
  import opened ProductFormUtils
  import opened ProductSchema

  /** The optional `meta` object of the candidate record. */
  datatype MetaInput = MetaInput(barcode: Scalar, qrCode: Scalar)

  /**
   * The object handed to `newProductSchema.safeParse`.  A key the object
   * does not have is `Undefined`, or `None` for the array and object fields.
   */
  datatype Candidate = Candidate(
    title: Scalar,
    description: Scalar,
    category: Scalar,
    price: Scalar,
    discountPercentage: Scalar,
    stock: Scalar,
    tags: Option<seq<Scalar>>,
    brand: Scalar,
    weight: Scalar,
    dimensions: Option<RawDimensions>,
    warrantyInformation: Scalar,
    shippingInformation: Scalar,
    availabilityStatus: Scalar,
    returnPolicy: Scalar,
    minimumOrderQuantity: Scalar,
    meta: Option<MetaInput>)

  /** The typed record the schema produces. */
  datatype NewProduct = NewProduct(
    title: string,
    description: string,
    category: Category,
    price: real,
    discountPercentage: real,
    stock: real,
    tags: Option<seq<string>>,
    brand: string,
    weight: real,
    dimensions: Dimensions,
    warrantyInformation: string,
    shippingInformation: string,
    availabilityStatus: AvailabilityStatus,
    returnPolicy: ReturnPolicy,
    minimumOrderQuantity: real,
    meta: Option<(Option<string>, Option<string>)>)

  /** `safeParse`: the typed record, or `error.flatten().fieldErrors`. */
  datatype Parsed = Success(data: NewProduct) | Failure(fieldErrors: map<string, seq<Issue>>)

  // ---------------------------------------------------------------------
  // The rules

  /** A tag: `z.nativeEnum(Tag)`, membership left to the runtime. */
  predicate IsTag(v: Scalar, env: Env) {
    v.Str? && env.isTag(v.s)
  }

  function CheckTag(v: Scalar, env: Env): (r: Checked<string>)
    ensures r.Passed? <==> IsTag(v, env)
    ensures r.Passed? ==> v == Str(r.value)
    ensures r.Failed? ==> |r.issues| > 0
  {
    match v
    case Str(s) => if env.isTag(s) then Passed(s) else Failed([InvalidEnum])
    case Undefined => Failed([Required])
    case _ => Failed([InvalidType])
  }

  /** `z.array(z.nativeEnum(Tag))`: every element must be a tag; the issues of all bad elements are kept. */
  function {:induction false} CheckTagList(items: seq<Scalar>, env: Env): (r: Checked<seq<string>>)
    ensures r.Passed? <==> forall i :: 0 <= i < |items| ==> IsTag(items[i], env)
    ensures r.Passed? ==> |r.value| == |items| && forall i :: 0 <= i < |items| ==> items[i] == Str(r.value[i])
    ensures r.Failed? ==> |r.issues| > 0
  {
    if items == [] then Passed([])
    else
      var head, rest := CheckTag(items[0], env), CheckTagList(items[1..], env);
      assert forall i :: 1 <= i < |items| ==> items[i] == items[1..][i - 1];
      if head.Passed? && rest.Passed? then Passed([head.value] + rest.value)
      else Failed(IssuesOf(head) + IssuesOf(rest))
  }

  /** `.optional()` on the tag array: a missing array passes. */
  function CheckTags(tags: Option<seq<Scalar>>, env: Env): (r: Checked<Option<seq<string>>>)
    ensures r.Passed? <==> tags.None? || forall i :: 0 <= i < |tags.value| ==> IsTag(tags.value[i], env)
    ensures r.Passed? && tags.None? ==> r.value.None?
    ensures r.Passed? && tags.Some? ==> r.value.Some? && |r.value.value| == |tags.value|
    ensures r.Failed? ==> |r.issues| > 0
  {
    match tags
    case None => Passed(None)
    case Some(items) =>
      var c := CheckTagList(items, env);
      if c.Passed? then Passed(Some(c.value)) else Failed(c.issues)
  }

  /** The three sides are numbers at least 0.01 after coercion. */
  predicate DimensionsOk(d: Option<RawDimensions>, env: Env) {
    d.Some? && NumberAtLeast(d.value.width, 0.01, env) && NumberAtLeast(d.value.height, 0.01, env)
    && NumberAtLeast(d.value.depth, 0.01, env)
  }

  /** The nested `dimensions` object; a missing object is `Required`, its sides' issues are reported under `dimensions`. */
  function CheckDimensions(d: Option<RawDimensions>, env: Env): (r: Checked<Dimensions>)
    ensures r.Passed? <==> DimensionsOk(d, env)
    ensures r.Passed? ==> Some(r.value.width) == CoerceNumber(d.value.width, env)
                          && Some(r.value.height) == CoerceNumber(d.value.height, env)
                          && Some(r.value.depth) == CoerceNumber(d.value.depth, env)
    ensures r.Failed? ==> |r.issues| > 0
    ensures d.None? ==> r == Failed([Required])
  {
    match d
    case None => Failed([Required])
    case Some(raw) =>
      var w := CheckNumberMin(raw.width, 0.01, "Width must be positive", env);
      var h := CheckNumberMin(raw.height, 0.01, "Height must be positive", env);
      var dp := CheckNumberMin(raw.depth, 0.01, "Depth must be positive", env);
      if w.Passed? && h.Passed? && dp.Passed? then Passed(Dimensions(w.value, h.value, dp.value))
      else Failed(IssuesOf(w) + IssuesOf(h) + IssuesOf(dp))
  }

  /** `z.string().optional()`. */
  function CheckOptionalString(v: Scalar): (r: Checked<Option<string>>)
    ensures r.Passed? <==> v.Undefined? || v.Str?
    ensures r.Passed? ==> r.value == if v.Str? then Some(v.s) else None
    ensures r.Failed? ==> |r.issues| > 0
  {
    match v
    case Undefined => Passed(None)
    case Str(s) => Passed(Some(s))
    case _ => Failed([InvalidType])
  }

  predicate MetaOk(m: Option<MetaInput>) {
    m.None? || ((m.value.barcode.Undefined? || m.value.barcode.Str?) && (m.value.qrCode.Undefined? || m.value.qrCode.Str?))
  }

  /** The optional `meta` object with its two optional strings. */
  function CheckMeta(m: Option<MetaInput>): (r: Checked<Option<(Option<string>, Option<string>)>>)
    ensures r.Passed? <==> MetaOk(m)
    ensures r.Passed? && m.None? ==> r.value.None?
    ensures r.Failed? ==> |r.issues| > 0
  {
    match m
    case None => Passed(None)
    case Some(mi) =>
      var b, q := CheckOptionalString(mi.barcode), CheckOptionalString(mi.qrCode);
      if b.Passed? && q.Passed? then Passed(Some((b.value, q.value))) else Failed(IssuesOf(b) + IssuesOf(q))
  }

  // ---------------------------------------------------------------------
  // The table

  /** The number of keys in the schema. */
  const FieldCount: nat := 16

  /** The schema's key number i, in declaration order. */
  function FieldName(i: nat): string {
    match i
    case 0 => "title"
    case 1 => "description"
    case 2 => "category"
    case 3 => "price"
    case 4 => "discountPercentage"
    case 5 => "stock"
    case 6 => "tags"
    case 7 => "brand"
    case 8 => "weight"
    case 9 => "dimensions"
    case 10 => "warrantyInformation"
    case 11 => "shippingInformation"
    case 12 => "availabilityStatus"
    case 13 => "returnPolicy"
    case 14 => "minimumOrderQuantity"
    case 15 => "meta"
    case _ => ""
  }

  /** Rule number i of the table, stated on the candidate. */
  predicate RuleHolds(c: Candidate, env: Env, i: nat) {
    match i
    case 0 => LengthIn(c.title, 3, 100)
    case 1 => LengthIn(c.description, 50, 500)
    case 2 => IsCategoryValue(c.category)
    case 3 => NumberAtLeast(c.price, 0.01, env)
    case 4 => NumberAtLeast(c.discountPercentage, 0.01, env)
    case 5 => NumberAtLeast(c.stock, 0.0, env)
    case 6 => c.tags.None? || forall j :: 0 <= j < |c.tags.value| ==> IsTag(c.tags.value[j], env)
    case 7 => LengthIn(c.brand, 2, 50)
    case 8 => NumberAtLeast(c.weight, 0.01, env)
    case 9 => DimensionsOk(c.dimensions, env)
    case 10 => LengthIn(c.warrantyInformation, 2, 100)
    case 11 => LengthIn(c.shippingInformation, 2, 100)
    case 12 => IsAvailabilityValue(c.availabilityStatus)
    case 13 => IsReturnPolicyValue(c.returnPolicy)
    case 14 => NumberAtLeast(c.minimumOrderQuantity, 1.0, env)
    case _ => MetaOk(c.meta)
  }

  /** Every rule holds. */
  predicate Admissible(c: Candidate, env: Env) {
    && LengthIn(c.title, 3, 100)
    && LengthIn(c.description, 50, 500)
    && IsCategoryValue(c.category)
    && NumberAtLeast(c.price, 0.01, env)
    && NumberAtLeast(c.discountPercentage, 0.01, env)
    && NumberAtLeast(c.stock, 0.0, env)
    && (c.tags.None? || forall j :: 0 <= j < |c.tags.value| ==> IsTag(c.tags.value[j], env))
    && LengthIn(c.brand, 2, 50)
    && NumberAtLeast(c.weight, 0.01, env)
    && DimensionsOk(c.dimensions, env)
    && LengthIn(c.warrantyInformation, 2, 100)
    && LengthIn(c.shippingInformation, 2, 100)
    && IsAvailabilityValue(c.availabilityStatus)
    && IsReturnPolicyValue(c.returnPolicy)
    && NumberAtLeast(c.minimumOrderQuantity, 1.0, env)
    && MetaOk(c.meta)
  }

  /** The conjunction is the table: a candidate is admissible exactly when each numbered rule holds. */
  lemma AdmissibleIffEveryRule(c: Candidate, env: Env)
    ensures Admissible(c, env) <==> forall i :: 0 <= i < FieldCount ==> RuleHolds(c, env, i)
  {
    if Admissible(c, env) {
      forall i | 0 <= i < FieldCount ensures RuleHolds(c, env, i) {
        if i <= 7 {} else {}
      }
    }
    if forall i :: 0 <= i < FieldCount ==> RuleHolds(c, env, i) {
      assert RuleHolds(c, env, 0) && RuleHolds(c, env, 1) && RuleHolds(c, env, 2) && RuleHolds(c, env, 3);
      assert RuleHolds(c, env, 4) && RuleHolds(c, env, 5) && RuleHolds(c, env, 6) && RuleHolds(c, env, 7);
      assert RuleHolds(c, env, 8) && RuleHolds(c, env, 9) && RuleHolds(c, env, 10) && RuleHolds(c, env, 11);
      assert RuleHolds(c, env, 12) && RuleHolds(c, env, 13) && RuleHolds(c, env, 14) && RuleHolds(c, env, 15);
    }
  }

  /** The issues rule number i reports, with the table's messages. */
  function IssuesAt(c: Candidate, env: Env, i: nat): seq<Issue> {
    match i
    case 0 => IssuesOf(CheckString(c.title, 3, 100))
    case 1 => IssuesOf(CheckString(c.description, 50, 500))
    case 2 => IssuesOf(CheckCategory(c.category))
    case 3 => IssuesOf(CheckNumberMin(c.price, 0.01, "Price must be greater than 0", env))
    case 4 => IssuesOf(CheckNumberMin(c.discountPercentage, 0.01, "Discount must be positive", env))
    case 5 => IssuesOf(CheckNumberMin(c.stock, 0.0, "Stock must be 0 or more", env))
    case 6 => IssuesOf(CheckTags(c.tags, env))
    case 7 => IssuesOf(CheckString(c.brand, 2, 50))
    case 8 => IssuesOf(CheckNumberMin(c.weight, 0.01, "Weight must be positive", env))
    case 9 => IssuesOf(CheckDimensions(c.dimensions, env))
    case 10 => IssuesOf(CheckString(c.warrantyInformation, 2, 100))
    case 11 => IssuesOf(CheckString(c.shippingInformation, 2, 100))
    case 12 => IssuesOf(CheckAvailability(c.availabilityStatus))
    case 13 => IssuesOf(CheckReturnPolicy(c.returnPolicy))
    case 14 => IssuesOf(CheckNumberMin(c.minimumOrderQuantity, 1.0, "Minimum order is 1", env))
    case _ => IssuesOf(CheckMeta(c.meta))
  }

  /** A rule reports issues exactly when it is broken. */
  lemma IssuesIffBroken(c: Candidate, env: Env, i: nat)
    requires i < FieldCount
    ensures |IssuesAt(c, env, i)| > 0 <==> !RuleHolds(c, env, i)
  {
    if i <= 7 {} else {}
  }

  /** The per-field issue lists, keyed by field name. */
  function FieldIssues(c: Candidate, env: Env): (r: seq<(string, seq<Issue>)>)
    ensures |r| == FieldCount && forall i :: 0 <= i < |r| ==> r[i] == (FieldName(i), IssuesAt(c, env, i))
  {
    seq(FieldCount, i requires 0 <= i < FieldCount => (FieldName(i), IssuesAt(c, env, i)))
  }

  /** The fields with issues are exactly the fields whose rule is broken. */
  lemma ErrorKeysAreBrokenRules(c: Candidate, env: Env)
    ensures forall k :: k in ErrorMap(FieldIssues(c, env)) <==>
              exists i :: 0 <= i < FieldCount && FieldName(i) == k && !RuleHolds(c, env, i)
  {
    var f := FieldIssues(c, env);
    forall i | 0 <= i < FieldCount ensures |f[i].1| > 0 <==> !RuleHolds(c, env, i) {
      IssuesIffBroken(c, env, i);
    }
  }

  /** What every record the schema accepts satisfies. */
  predicate NewProductInvariant(p: NewProduct, env: Env) {
    && TextIn(p.title, 3, 100)
    && TextIn(p.description, 50, 500)
    && TextIn(p.brand, 2, 50)
    && TextIn(p.warrantyInformation, 2, 100)
    && TextIn(p.shippingInformation, 2, 100)
    && p.price >= 0.01 && p.discountPercentage >= 0.01 && p.stock >= 0.0
    && p.weight >= 0.01 && p.minimumOrderQuantity >= 1.0
    && p.dimensions.width >= 0.01 && p.dimensions.height >= 0.01 && p.dimensions.depth >= 0.01
    && (p.tags.Some? ==> forall j :: 0 <= j < |p.tags.value| ==> env.isTag(p.tags.value[j]))
  }

  /** The typed record built from an admissible candidate. */
  function Build(c: Candidate, env: Env): (p: NewProduct)
    requires Admissible(c, env)
    ensures NewProductInvariant(p, env)
    ensures p.title == c.title.s && p.description == c.description.s && p.brand == c.brand.s
    ensures p.category.Value() == c.category.s && p.availabilityStatus.Value() == c.availabilityStatus.s
    ensures p.returnPolicy.Value() == c.returnPolicy.s
    ensures Some(p.price) == CoerceNumber(c.price, env) && Some(p.discountPercentage) == CoerceNumber(c.discountPercentage, env)
    ensures Some(p.stock) == CoerceNumber(c.stock, env) && Some(p.weight) == CoerceNumber(c.weight, env)
    ensures Some(p.minimumOrderQuantity) == CoerceNumber(c.minimumOrderQuantity, env)
    ensures p.tags.Some? <==> c.tags.Some?
    ensures c.tags.Some? ==> |p.tags.value| == |c.tags.value| && forall j :: 0 <= j < |c.tags.value| ==> c.tags.value[j] == Str(p.tags.value[j])
  {
    var tags := CheckTags(c.tags, env);
    assert c.tags.Some? ==> CheckTagList(c.tags.value, env).Passed? && tags.value == Some(CheckTagList(c.tags.value, env).value);
    NewProduct(
      title := c.title.s,
      description := c.description.s,
      category := CheckCategory(c.category).value,
      price := CoerceNumber(c.price, env).value,
      discountPercentage := CoerceNumber(c.discountPercentage, env).value,
      stock := CoerceNumber(c.stock, env).value,
      tags := tags.value,
      brand := c.brand.s,
      weight := CoerceNumber(c.weight, env).value,
      dimensions := CheckDimensions(c.dimensions, env).value,
      warrantyInformation := c.warrantyInformation.s,
      shippingInformation := c.shippingInformation.s,
      availabilityStatus := CheckAvailability(c.availabilityStatus).value,
      returnPolicy := CheckReturnPolicy(c.returnPolicy).value,
      minimumOrderQuantity := CoerceNumber(c.minimumOrderQuantity, env).value,
      meta := CheckMeta(c.meta).value)
  }

  /** `newProductSchema.safeParse(c)`. */
  function SafeParse(c: Candidate, env: Env): (r: Parsed)
    ensures r.Success? <==> Admissible(c, env)
    ensures r.Success? ==> NewProductInvariant(r.data, env) && r.data == Build(c, env)
    ensures r.Failure? ==> forall k :: k in r.fieldErrors ==> |r.fieldErrors[k]| > 0
  {
    if Admissible(c, env) then Success(Build(c, env)) else Failure(ErrorMap(FieldIssues(c, env)))
  }

  /** A rejected candidate names at least one field. */
  lemma RejectionNamesAField(c: Candidate, env: Env)
    ensures SafeParse(c, env).Failure? ==> SafeParse(c, env).fieldErrors != map[]
  {
    AdmissibleIffEveryRule(c, env);
    if !Admissible(c, env) {
      var i :| 0 <= i < FieldCount && !RuleHolds(c, env, i);
      ReportedIffBroken(c, env, i);
    }
  }

  /**
   * The discount rule is stricter than the product form's: a missing or
   * zero discount is rejected here ("Discount must be positive").
   */
  lemma DiscountRequired(c: Candidate, env: Env)
    requires c.discountPercentage.Undefined? || c.discountPercentage == Num(0.0)
    ensures SafeParse(c, env).Failure? && "discountPercentage" in SafeParse(c, env).fieldErrors
    ensures IssuesAt(c, env, 4) == if c.discountPercentage.Undefined? then [NotANumber]
                                   else [BelowMinimum(0.01, "Discount must be positive")]
  {
    assert FieldName(4) == "discountPercentage";
  }

  /** The text length bounds are the product form's. */
  lemma SameLengthBounds(c: Candidate, raw: RawProductFormData, env: Env)
    requires c.title == raw.title && c.description == raw.description && c.brand == raw.brand
    requires c.warrantyInformation == raw.warrantyInformation && c.shippingInformation == raw.shippingInformation
    ensures RuleHolds(c, env, 0) == ProductSchema.RuleHolds(raw, env, 0)
    ensures RuleHolds(c, env, 1) == ProductSchema.RuleHolds(raw, env, 1)
    ensures RuleHolds(c, env, 7) == ProductSchema.RuleHolds(raw, env, 5)
    ensures RuleHolds(c, env, 10) == ProductSchema.RuleHolds(raw, env, 8)
    ensures RuleHolds(c, env, 11) == ProductSchema.RuleHolds(raw, env, 9)
  {
  }

  // ---------------------------------------------------------------------
  // The action

  /** `formData.get(key) as string`: the text, or `null`. */
  function FieldText(fd: FormData, key: string): (r: Scalar)
    ensures r.Null? || r.Str?
  {
    match Get(fd, key)
    case Some(s) => Str(s)
    case None => Null
  }

  /** The seven fields the action reads. */
  datatype ActionRaw = ActionRaw(
    title: Scalar,
    description: Scalar,
    category: Scalar,
    price: Scalar,
    availabilityStatus: Scalar,
    returnPolicy: Scalar,
    tags: seq<string>)

  function ReadRaw(fd: FormData): ActionRaw {
    ActionRaw(FieldText(fd, "title"), FieldText(fd, "description"), FieldText(fd, "category"),
      FieldText(fd, "price"), FieldText(fd, "availabilityStatus"), FieldText(fd, "returnPolicy"),
      GetAll(fd, "tags"))
  }

  function StrItems(ss: seq<string>): (r: seq<Scalar>)
    ensures |r| == |ss| && forall i :: 0 <= i < |ss| ==> r[i] == Str(ss[i])
  {
    seq(|ss|, i requires 0 <= i < |ss| => Str(ss[i]))
  }

  /** The object validated: only the seven fields read; every other key is missing. */
  function CandidateOf(raw: ActionRaw): Candidate {
    Candidate(
      title := raw.title, description := raw.description, category := raw.category, price := raw.price,
      discountPercentage := Undefined, stock := Undefined, tags := Some(StrItems(raw.tags)), brand := Undefined,
      weight := Undefined, dimensions := None, warrantyInformation := Undefined, shippingInformation := Undefined,
      availabilityStatus := raw.availabilityStatus, returnPolicy := raw.returnPolicy,
      minimumOrderQuantity := Undefined, meta := None)
  }

  /** The inputs echoed back to the page. */
  datatype Echo = Echo(
    title: Scalar,
    description: Scalar,
    category: Scalar,
    price: Scalar,
    availabilityStatus: Scalar,
    returnPolicy: Scalar,
    tags: seq<string>)

  /** `NewProductFormState`. */
  datatype FormState = FormState(success: bool, message: string, inputs: Option<Echo>, errors: Option<map<string, seq<Issue>>>)

  /** `rawData.price ? parseFloat(rawData.price) : undefined`. */
  function EchoPrice(price: Scalar, env: Env): (r: Scalar)
    ensures !Truthy(price) ==> r.Undefined?
    ensures price.Str? && price.s != "" ==> r == match env.parseFloat(price.s) case Some(x) => Num(x) case None => NaN
  {
    if Truthy(price) && price.Str? then
      match env.parseFloat(price.s)
      case Some(x) => Num(x)
      case None => NaN
    else Undefined
  }

  function EchoOf(raw: ActionRaw, env: Env): Echo {
    Echo(raw.title, raw.description, raw.category, EchoPrice(raw.price, env), raw.availabilityStatus, raw.returnPolicy, raw.tags)
  }

  /** The answer for a parse result; `stored` says whether the store write succeeded. */
  function Respond(parsed: Parsed, echo: Echo, stored: bool): (r: FormState)
    ensures parsed.Failure? ==> r == FormState(false, "Please correct the form input", Some(echo), Some(parsed.fieldErrors))
    ensures parsed.Success? && stored ==> r == FormState(true, "The product is created successfully", None, None)
    ensures parsed.Success? && !stored ==> r == FormState(false, "Failed to add product", None, None)
    ensures r.success <==> parsed.Success? && stored
  {
    if parsed.Failure? then FormState(false, "Please correct the form input", Some(echo), Some(parsed.fieldErrors))
    else if stored then FormState(true, "The product is created successfully", None, None)
    else FormState(false, "Failed to add product", None, None)
  }

  /** `AddNewProductAction(state, formData)`. */
  function AddNewProduct(fd: FormData, env: Env, stored: bool): (r: FormState)
    ensures r.success ==> stored
    ensures r.errors.Some? ==> !r.success && r.inputs == Some(EchoOf(ReadRaw(fd), env))
  {
    var raw := ReadRaw(fd);
    Respond(SafeParse(CandidateOf(raw), env), EchoOf(raw, env), stored)
  }

  /** The numbers of the required fields the action never reads. */
  const UnreadRequired: set<nat> := {4, 5, 7, 8, 9, 10, 11, 14}

  /** A broken rule is reported under its field's name, and an unbroken one is not. */
  lemma ReportedIffBroken(c: Candidate, env: Env, i: nat)
    requires i < FieldCount
    ensures !RuleHolds(c, env, i) ==> SafeParse(c, env).Failure?
    ensures SafeParse(c, env).Failure? ==> (FieldName(i) in SafeParse(c, env).fieldErrors <==> !RuleHolds(c, env, i))
  {
    AdmissibleIffEveryRule(c, env);
    ErrorKeysAreBrokenRules(c, env);
    if SafeParse(c, env).Failure? && FieldName(i) in SafeParse(c, env).fieldErrors {
      var j :| 0 <= j < FieldCount && FieldName(j) == FieldName(i) && !RuleHolds(c, env, j);
      FieldNamesDistinct(i, j);
    }
  }

  /**
   * Whatever was submitted, the candidate misses the unread required fields
   * (discountPercentage, stock, brand, weight, dimensions, warrantyInformation,
   * shippingInformation, minimumOrderQuantity), and each is reported.
   */
  lemma {:induction false} CandidateAlwaysRejected(raw: ActionRaw, env: Env)
    ensures SafeParse(CandidateOf(raw), env).Failure?
    ensures forall i :: i in UnreadRequired ==> FieldName(i) in SafeParse(CandidateOf(raw), env).fieldErrors
  {
    UnreadReported(raw, env, 7);
    forall i | i in UnreadRequired ensures FieldName(i) in SafeParse(CandidateOf(raw), env).fieldErrors {
      UnreadReported(raw, env, i);
    }
  }

  lemma UnreadReported(raw: ActionRaw, env: Env, i: nat)
    requires i in UnreadRequired
    ensures SafeParse(CandidateOf(raw), env).Failure? && FieldName(i) in SafeParse(CandidateOf(raw), env).fieldErrors
  {
    UnreadRuleBroken(raw, env, i);
    ReportedIffBroken(CandidateOf(raw), env, i);
  }

  lemma UnreadRuleBroken(raw: ActionRaw, env: Env, i: nat)
    requires i in UnreadRequired
    ensures !RuleHolds(CandidateOf(raw), env, i)
  {
    if i == 4 {} else if i == 5 {} else if i == 7 {} else if i == 8 {}
    else if i == 9 {} else if i == 10 {} else if i == 11 {} else {}
  }

  /**
   * The action never succeeds and never writes: it always answers with the
   * correction message, the echoed inputs and an error map naming at least
   * the unread required fields, whatever the store would have done.
   */
  lemma {:induction false} ActionAlwaysRejects(fd: FormData, env: Env, stored: bool)
    ensures var r := AddNewProduct(fd, env, stored);
      && !r.success && r.message == "Please correct the form input"
      && r.inputs == Some(EchoOf(ReadRaw(fd), env))
      && r.errors.Some? && forall i :: i in UnreadRequired ==> FieldName(i) in r.errors.value
  {
    CandidateAlwaysRejected(ReadRaw(fd), env);
  }

  /** The echoed price is parsed only when a non-empty price was submitted. */
  lemma EchoedPrice(fd: FormData, env: Env)
    ensures Get(fd, "price").None? || Get(fd, "price") == Some("") ==> EchoOf(ReadRaw(fd), env).price.Undefined?
    ensures Get(fd, "price").Some? && Get(fd, "price").value != "" ==>
              EchoOf(ReadRaw(fd), env).price == match env.parseFloat(Get(fd, "price").value) case Some(x) => Num(x) case None => NaN
  {
  }

  /** A submitted brand is ignored: even a valid one (2 to 50 UTF-16 code units) is reported as missing. */
  lemma ValidBrandStillReported(fd: FormData, env: Env)
    requires Get(fd, "brand").Some? && TextIn(Get(fd, "brand").value, 2, 50)
    ensures AddNewProduct(fd, env, true).errors.Some? && "brand" in AddNewProduct(fd, env, true).errors.value
    ensures AddNewProduct(fd, env, true).errors.value["brand"] == [Required]
  {
    var c := CandidateOf(ReadRaw(fd));
    UnreadRuleBroken(ReadRaw(fd), env, 7);
    ReportedIssues(c, env, 7);
  }

  /** A broken rule's entry in the error map is the issue list it reported. */
  lemma ReportedIssues(c: Candidate, env: Env, i: nat)
    requires i < FieldCount && !RuleHolds(c, env, i)
    ensures SafeParse(c, env).Failure? && FieldName(i) in SafeParse(c, env).fieldErrors
    ensures SafeParse(c, env).fieldErrors[FieldName(i)] == IssuesAt(c, env, i)
  {
    var f := FieldIssues(c, env);
    ReportedIffBroken(c, env, i);
    IssuesIffBroken(c, env, i);
    forall j | 0 <= j < |f| && j != i ensures f[j].0 != f[i].0 {
      if f[j].0 == f[i].0 { FieldNamesDistinct(j, i); }
    }
    ErrorMapValue(f, i);
  }

  /** An issue list in the error map is the one its field reported, when field names are distinct. */
  lemma {:induction false} ErrorMapValue(fields: seq<(string, seq<Issue>)>, i: nat)
    requires i < |fields| && |fields[i].1| > 0
    requires forall j :: 0 <= j < |fields| && j != i ==> fields[j].0 != fields[i].0
    ensures fields[i].0 in ErrorMap(fields) && ErrorMap(fields)[fields[i].0] == fields[i].1
  {
    if i > 0 {
      ErrorMapValue(fields[1..], i - 1);
    }
  }

  // ---------------------------------------------------------------------
  // The intended action: every schema field read from the form

  /** The candidate built from every field the schema names, dimensions from their dotted keys. */
  function FullCandidate(fd: FormData): Candidate {
    Candidate(
      title := FieldText(fd, "title"), description := FieldText(fd, "description"),
      category := FieldText(fd, "category"), price := FieldText(fd, "price"),
      discountPercentage := FieldText(fd, "discountPercentage"), stock := FieldText(fd, "stock"),
      tags := Some(StrItems(GetAll(fd, "tags"))), brand := FieldText(fd, "brand"),
      weight := FieldText(fd, "weight"),
      dimensions := Some(RawDimensions(FieldText(fd, "dimensions.width"), FieldText(fd, "dimensions.height"),
                                       FieldText(fd, "dimensions.depth"))),
      warrantyInformation := FieldText(fd, "warrantyInformation"),
      shippingInformation := FieldText(fd, "shippingInformation"),
      availabilityStatus := FieldText(fd, "availabilityStatus"), returnPolicy := FieldText(fd, "returnPolicy"),
      minimumOrderQuantity := FieldText(fd, "minimumOrderQuantity"), meta := None)
  }

  function AddNewProductCorrected(fd: FormData, env: Env, stored: bool): FormState {
    Respond(SafeParse(FullCandidate(fd), env), EchoOf(ReadRaw(fd), env), stored)
  }

  /** With every field read, a field is reported exactly when its submitted value breaks its rule. */
  lemma {:induction false} CorrectedReportsOnlyBrokenFields(fd: FormData, env: Env, stored: bool)
    ensures var r := AddNewProductCorrected(fd, env, stored);
      && (r.errors.Some? <==> !Admissible(FullCandidate(fd), env))
      && (r.errors.Some? ==> forall i :: 0 <= i < FieldCount ==>
            (FieldName(i) in r.errors.value <==> !RuleHolds(FullCandidate(fd), env, i)))
  {
    forall i | 0 <= i < FieldCount ensures SafeParse(FullCandidate(fd), env).Failure? ==>
      (FieldName(i) in SafeParse(FullCandidate(fd), env).fieldErrors <==> !RuleHolds(FullCandidate(fd), env, i)) {
      ReportedIffBroken(FullCandidate(fd), env, i);
    }
  }

  /** With every field read, a valid submitted brand (2 to 50 UTF-16 code units) is not reported. */
  lemma CorrectedAcceptsValidBrand(fd: FormData, env: Env, stored: bool)
    requires Get(fd, "brand").Some? && TextIn(Get(fd, "brand").value, 2, 50)
    ensures var r := AddNewProductCorrected(fd, env, stored);
      r.errors.Some? ==> "brand" !in r.errors.value
  {
    var c := FullCandidate(fd);
    assert c.brand == Str(Get(fd, "brand").value);
    assert RuleHolds(c, env, 7);
    ReportedIffBroken(c, env, 7);
  }

  /** The schema key of each name, or 16 for a name it does not have. */
  function FieldNumber(k: string): nat {
    match k
    case "title" => 0
    case "description" => 1
    case "category" => 2
    case "price" => 3
    case "discountPercentage" => 4
    case "stock" => 5
    case "tags" => 6
    case "brand" => 7
    case "weight" => 8
    case "dimensions" => 9
    case "warrantyInformation" => 10
    case "shippingInformation" => 11
    case "availabilityStatus" => 12
    case "returnPolicy" => 13
    case "minimumOrderQuantity" => 14
    case "meta" => 15
    case _ => 16
  }

  lemma FieldNumbered(i: nat)
    requires i < FieldCount
    ensures FieldNumber(FieldName(i)) == i
  {
    if i == 0 {} else if i == 1 {} else if i == 2 {} else if i == 3 {} else if i == 4 {} else if i == 5 {}
    else if i == 6 {} else if i == 7 {} else if i == 8 {} else if i == 9 {} else if i == 10 {}
    else if i == 11 {} else if i == 12 {} else if i == 13 {} else if i == 14 {} else {}
  }

  /** The schema's keys are distinct. */
  lemma FieldNamesDistinct(i: nat, j: nat)
    requires i < FieldCount && j < FieldCount && FieldName(i) == FieldName(j)
    ensures i == j
  {
    FieldNumbered(i);
    FieldNumbered(j);
  }
}
