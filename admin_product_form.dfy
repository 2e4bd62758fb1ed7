/**
 * The admin product form (src/components/admin/ProductForm.tsx), used both
 * to create and to edit: its default values, its `onSubmit` serialiser, and
 * what `extractFormData` reads back from the FormData it builds.
 */
module AdminProductForm {
  import opened Wrappers
  import opened JsRuntime
  import opened FormDataModel
  import opened ProductTypes
  import opened ProductFormUtils
  import opened FormSubmission

  datatype Mode = Create | Edit

  /** Arrays and objects are truthy; a scalar by the JavaScript rule. */
  predicate IsTruthy(fv: FieldValue) {
    match fv
    case Plain(v) => Truthy(v)
    case _ => true
  }

  /** `a || b`. */
  function Or(a: FieldValue, b: FieldValue): (r: FieldValue)
    ensures IsTruthy(a) ==> r == a
    ensures !IsTruthy(a) ==> r == b
  {
    if IsTruthy(a) then a else b
  }

  /** `a || b` on scalars. */
  function OrScalar(a: Scalar, b: Scalar): (r: Scalar)
    ensures Truthy(a) ==> r == a
    ensures !Truthy(a) ==> r == b
  {
    if Truthy(a) then a else b
  }

  /** `state?.inputs?.dimensions?.[side]`. */
  function InputSide(inputs: Entries, side: string): Scalar {
    match InputOf(inputs, "dimensions")
    case Dims(w, h, d) => if side == "width" then w else if side == "height" then h else d
    case _ => Undefined
  }

  function OptText(o: Option<string>): Scalar {
    if o.Some? then Str(o.value) else Undefined
  }

  function OptNum(o: Option<real>): Scalar {
    if o.Some? then Num(o.value) else Undefined
  }

  /** The product's images as form values. */
  function Strs(ss: seq<string>): (r: seq<Scalar>)
    ensures |r| == |ss| && forall i :: 0 <= i < |ss| ==> r[i] == Str(ss[i])
  {
    if ss == [] then [] else [Str(ss[0])] + Strs(ss[1..])
  }

  /** The form's field names, in the order of `defaultValues`. */
  const FormKeys: seq<string> := [
    "title", "description", "category", "price", "discountPercentage", "stock", "brand", "weight",
    "dimensions", "material", "color", "packQuantity", "pageCount", "warrantyInformation",
    "shippingInformation", "availabilityStatus", "returnPolicy", "minimumOrderQuantity", "images"]

  /** `product?.[FormKeys[i]]`, for every field except `dimensions` (position 8). */
  function ProductValue(product: Option<Product>, i: nat): FieldValue {
    if product.None? then Plain(Undefined)
    else
      var p := product.value;
      match i
      case 0 => Plain(Str(p.title))
      case 1 => Plain(Str(p.description))
      case 2 => Plain(Str(p.category.Value()))
      case 3 => Plain(Num(p.price))
      case 4 => Plain(OptNum(p.discountPercentage))
      case 5 => Plain(Num(p.stock))
      case 6 => Plain(Str(p.brand))
      case 7 => Plain(Num(p.weight))
      case 9 => Plain(OptText(p.material))
      case 10 => Plain(OptText(p.color))
      case 11 => Plain(OptNum(p.packQuantity))
      case 12 => Plain(OptNum(p.pageCount))
      case 13 => Plain(Str(p.warrantyInformation))
      case 14 => Plain(Str(p.shippingInformation))
      case 15 => Plain(Str(p.availabilityStatus))
      case 16 => Plain(Str(p.returnPolicy))
      case 17 => Plain(Num(p.minimumOrderQuantity))
      case 18 => List(Strs(p.images))
      case _ => Plain(Undefined)
  }

  /** `product?.dimensions?.[side]`. */
  function ProductSide(product: Option<Product>, side: string): Scalar {
    if product.None? then Undefined
    else if side == "width" then Num(product.value.dimensions.width)
    else if side == "height" then Num(product.value.dimensions.height)
    else Num(product.value.dimensions.depth)
  }

  function DefaultSide(product: Option<Product>, inputs: Entries, side: string): Scalar {
    OrScalar(OrScalar(ProductSide(product, side), InputSide(inputs, side)), Undefined)
  }

  /** The literal that ends the `||` chain of field `FormKeys[i]`. */
  function Fallback(i: nat): FieldValue {
    if i in {0, 1, 6, 9, 10, 13, 14} then Plain(Str(""))
    else if i == 18 then List([])
    else Plain(Undefined)
  }

  /**
   * Field `FormKeys[i]` of `defaultValues`: `product?.[key] ||
   * state?.inputs?.[key] || fallback`; `dimensions` is an object of three
   * such chains.
   */
  function DefaultAt(product: Option<Product>, inputs: Entries, i: nat): FieldValue
    requires i < |FormKeys|
  {
    if i == 8 then
      Dims(DefaultSide(product, inputs, "width"), DefaultSide(product, inputs, "height"), DefaultSide(product, inputs, "depth"))
    else
      Or(Or(ProductValue(product, i), InputOf(inputs, FormKeys[i])), Fallback(i))
  }

  /** `defaultValues`: each field's first truthy value among the product, the previous inputs and a fallback. */
  function Defaults(product: Option<Product>, inputs: Entries): (r: Entries)
    ensures |r| == |FormKeys| && forall i :: 0 <= i < |r| ==> r[i] == (FormKeys[i], DefaultAt(product, inputs, i))
  {
    seq(|FormKeys|, i requires 0 <= i < |FormKeys| => (FormKeys[i], DefaultAt(product, inputs, i)))
  }

  /** The position of a field name in `FormKeys`. */
  function FieldIndex(key: string): int {
    match key
    case "title" => 0
    case "description" => 1
    case "category" => 2
    case "price" => 3
    case "discountPercentage" => 4
    case "stock" => 5
    case "brand" => 6
    case "weight" => 7
    case "dimensions" => 8
    case "material" => 9
    case "color" => 10
    case "packQuantity" => 11
    case "pageCount" => 12
    case "warrantyInformation" => 13
    case "shippingInformation" => 14
    case "availabilityStatus" => 15
    case "returnPolicy" => 16
    case "minimumOrderQuantity" => 17
    case "images" => 18
    case _ => -1
  }

  lemma FormKeysIndexed(i: nat)
    requires i < |FormKeys|
    ensures FieldIndex(FormKeys[i]) == i
    ensures FormKeys[i] != "id" && FormKeys[i] !in DimensionKeys
  {
    if i == 0 {} else if i == 1 {} else if i == 2 {} else if i == 3 {} else if i == 4 {}
    else if i == 5 {} else if i == 6 {} else if i == 7 {} else if i == 8 {} else if i == 9 {}
    else if i == 10 {} else if i == 11 {} else if i == 12 {} else if i == 13 {} else if i == 14 {}
    else if i == 15 {} else if i == 16 {} else if i == 17 {} else {}
  }

  lemma FormKeysWellKeyed(product: Option<Product>, inputs: Entries)
    ensures WellKeyed(Defaults(product, inputs))
  {
    var r := Defaults(product, inputs);
    forall i, j | 0 <= i < j < |r| ensures r[i].0 != r[j].0 {
      FormKeysIndexed(i);
      FormKeysIndexed(j);
    }
    forall i | 0 <= i < |r| ensures r[i].0 != "id" && r[i].0 !in DimensionKeys {
      FormKeysIndexed(i);
    }
  }

  /** `mode === "edit" && product?.id`: the `id` entry that goes first. */
  function IdPrefix(mode: Mode, product: Option<Product>): FormData {
    if mode == Edit && product.Some? && product.value.id != "" then [("id", product.value.id)] else []
  }

  /** The FormData `onSubmit` hands to the server action. */
  function Submission(mode: Mode, product: Option<Product>, data: Entries, env: Env): FormData {
    IdPrefix(mode, product) + Emit(ProductFormRule, data, env)
  }

  /** `onSubmit` up to `formAction(formData)`. */
  method OnSubmit(mode: Mode, product: Option<Product>, data: Entries, env: Env) returns (fd: FormData)
    ensures fd == Submission(mode, product, data, env)
  {
    fd := [];
    if mode == Edit && product.Some? && product.value.id != "" {
      fd := fd + [("id", product.value.id)];
    }
    fd := AppendEntries(ProductFormRule, data, env, fd);
  }

  /** When only entry `i` writes under `name`, the submission's `name` entries are entry `i`'s. */
  lemma SubmittedValue(mode: Mode, product: Option<Product>, data: Entries, env: Env, i: nat, name: string)
    requires i < |data| && name != "id"
    requires forall j :: 0 <= j < |data| && j != i ==> name !in EmittedKeys(data[j].0, data[j].1)
    ensures Get(Submission(mode, product, data, env), name) == Get(EmitEntry(ProductFormRule, data[i].0, data[i].1, env), name)
    ensures GetAll(Submission(mode, product, data, env), name) == GetAll(EmitEntry(ProductFormRule, data[i].0, data[i].1, env), name)
  {
    var pre := IdPrefix(mode, product);
    LookupAbsent(pre, name);
    LookupAppend(pre, Emit(ProductFormRule, data, env), name);
    SingleEmitter(ProductFormRule, data, i, env, name);
  }

  /**
   * The `id` entry: present exactly in edit mode for a product with a
   * non-empty id, and read back by `extractFormData` unless it is blank.
   */
  lemma {:induction false} SubmittedId(mode: Mode, product: Option<Product>, data: Entries, env: Env)
    requires forall j :: 0 <= j < |data| ==> data[j].0 != "id"
    ensures var fd := Submission(mode, product, data, env);
      && (mode == Edit && product.Some? && product.value.id != "" ==> fd[0] == ("id", product.value.id))
      && (!(mode == Edit && product.Some? && product.value.id != "") ==> Absent(fd, "id"))
      && ExtractFormData(fd).id ==
           (if mode == Edit && product.Some? && !IsBlank(product.value.id) then Some(product.value.id) else None)
  {
    var pre := IdPrefix(mode, product);
    var rest := Emit(ProductFormRule, data, env);
    forall j | 0 <= j < |data| ensures "id" !in EmittedKeys(data[j].0, data[j].1) {
      assert "id" !in DimensionKeys;
    }
    NoEmitter(ProductFormRule, data, env, "id");
    LookupAbsent(rest, "id");
    LookupAppend(pre, rest, "id");
  }

  lemma ReadBackDimensions(mode: Mode, product: Option<Product>, data: Entries, env: Env, i: nat)
    requires WellKeyed(data) && i < |data| && data[i].0 == "dimensions" && data[i].1.Dims?
    ensures ExtractFormData(Submission(mode, product, data, env)).dimensions ==
      RawDimensions(Str(SideText(data[i].1.width, env)), Str(SideText(data[i].1.height, env)), Str(SideText(data[i].1.depth, env)))
  {
    var fd := Submission(mode, product, data, env);
    var dims := data[i].1;
    ReadBackSide(mode, product, data, env, i, 0);
    ReadBackSide(mode, product, data, env, i, 1);
    ReadBackSide(mode, product, data, env, i, 2);
  }

  lemma ReadBackSide(mode: Mode, product: Option<Product>, data: Entries, env: Env, i: nat, side: nat)
    requires WellKeyed(data) && i < |data| && data[i].0 == "dimensions" && data[i].1.Dims? && side < 3
    ensures Get(Submission(mode, product, data, env), DimensionKeys[side]) ==
      Some(SideText(if side == 0 then data[i].1.width else if side == 1 then data[i].1.height else data[i].1.depth, env))
  {
    var dims := data[i].1;
    var written := EmitEntry(ProductFormRule, "dimensions", dims, env);
    OnlyDimensions(data, i, DimensionKeys[side]);
    SubmittedValue(mode, product, data, env, i, DimensionKeys[side]);
    var key := DimensionKeys[side];
    if side == 1 {
      assert written[0].0 != key;
      assert Get(written, key) == Get(written[1..], key);
    } else if side == 2 {
      assert written[0].0 != key && written[1].0 != key;
      assert Get(written, key) == Get(written[1..], key) == Get(written[1..][1..], key);
    }
  }

  lemma ReadBackList(mode: Mode, product: Option<Product>, data: Entries, env: Env, i: nat)
    requires WellKeyed(data) && i < |data| && data[i].1.List?
    ensures GetAll(Submission(mode, product, data, env), data[i].0) == Texts(data[i].1.items, env)
  {
    OnlyOwnKey(data, i);
    SubmittedValue(mode, product, data, env, i, data[i].0);
    ListEntriesReadBack(data[i].0, data[i].1.items, env);
  }

  lemma ReadBackPlain(mode: Mode, product: Option<Product>, data: Entries, env: Env, i: nat)
    requires WellKeyed(data) && i < |data| && data[i].1.Plain?
    ensures var fd := Submission(mode, product, data, env);
      var k := data[i].0;
      var v := data[i].1.v;
      && (k in OptionalFields ==> Get(fd, k) == if Nullish(v) || v == Str("") then None else Some(StringOf(v, env)))
      && (k !in OptionalFields ==> Get(fd, k) == Some(if Nullish(v) then "" else StringOf(v, env)))
  {
    OnlyOwnKey(data, i);
    SubmittedValue(mode, product, data, env, i, data[i].0);
  }

  /** `String(value ?? "")`: what a non-optional scalar is sent as. */
  function SentText(v: Scalar, env: Env): string {
    if Nullish(v) then "" else StringOf(v, env)
  }

  /** What an optional scalar reads back as: left out when `null`, `undefined` or "", dropped when blank. */
  function SentOptional(v: Scalar, env: Env): Option<string> {
    if Nullish(v) || v == Str("") then None else NonBlank(Some(StringOf(v, env)))
  }

  /** A non-optional scalar is read back as `String(value ?? "")`. */
  lemma ReadBackText(mode: Mode, product: Option<Product>, data: Entries, env: Env, i: nat)
    requires WellKeyed(data) && i < |data| && data[i].1.Plain? && data[i].0 !in OptionalFields
    ensures var raw := ExtractFormData(Submission(mode, product, data, env));
      var k := data[i].0;
      var t := Str(SentText(data[i].1.v, env));
      && (k == "title" ==> raw.title == t)
      && (k == "description" ==> raw.description == t)
      && (k == "category" ==> raw.category == t)
      && (k == "price" ==> raw.price == t)
      && (k == "stock" ==> raw.stock == t)
      && (k == "brand" ==> raw.brand == t)
      && (k == "weight" ==> raw.weight == t)
      && (k == "warrantyInformation" ==> raw.warrantyInformation == t)
      && (k == "shippingInformation" ==> raw.shippingInformation == t)
      && (k == "availabilityStatus" ==> raw.availabilityStatus == t)
      && (k == "returnPolicy" ==> raw.returnPolicy == t)
      && (k == "minimumOrderQuantity" ==> raw.minimumOrderQuantity == t)
  {
    var fd := Submission(mode, product, data, env);
    ReadBackPlain(mode, product, data, env, i);
    assert Get(fd, data[i].0) == Some(SentText(data[i].1.v, env));
  }

  /** An optional scalar is read back as its text unless it was `null`, `undefined`, "" or blank. */
  lemma ReadBackOptional(mode: Mode, product: Option<Product>, data: Entries, env: Env, i: nat)
    requires WellKeyed(data) && i < |data| && data[i].1.Plain? && data[i].0 in OptionalFields
    ensures var raw := ExtractFormData(Submission(mode, product, data, env));
      var k := data[i].0;
      var o := SentOptional(data[i].1.v, env);
      && (k == "material" ==> raw.material == o)
      && (k == "color" ==> raw.color == o)
      && (k == "packQuantity" ==> raw.packQuantity == o)
      && (k == "pageCount" ==> raw.pageCount == o)
      && (k == "discountPercentage" ==> raw.discountPercentage == o)
  {
    var fd := Submission(mode, product, data, env);
    ReadBackPlain(mode, product, data, env, i);
    assert NonBlank(Get(fd, data[i].0)) == SentOptional(data[i].1.v, env);
  }

  /**
   * Round trip through `extractFormData` for the structured fields: arrays
   * come back as their items' texts in order, the dimensions object as
   * three strings, "0" standing for a missing side.
   */
  lemma {:induction false} SubmissionReadBack(mode: Mode, product: Option<Product>, data: Entries, env: Env, i: nat)
    requires WellKeyed(data) && i < |data|
    ensures var raw := ExtractFormData(Submission(mode, product, data, env));
      var k := data[i].0;
      var fv := data[i].1;
      && (k == "images" && fv.List? ==> raw.images == Texts(fv.items, env))
      && (k == "tags" && fv.List? ==> raw.tags == Texts(fv.items, env))
      && (k == "dimensions" && fv.Dims? ==>
            raw.dimensions == RawDimensions(Str(SideText(fv.width, env)), Str(SideText(fv.height, env)), Str(SideText(fv.depth, env))))
  {
    var k := data[i].0;
    var fv := data[i].1;
    if k == "dimensions" && fv.Dims? {
      ReadBackDimensions(mode, product, data, env, i);
    } else if fv.List? {
      ReadBackList(mode, product, data, env, i);
    }
  }

  /** A field no entry carries is missing from the submission. */
  lemma {:induction false} SubmissionMissingField(mode: Mode, product: Option<Product>, data: Entries, env: Env, k: string)
    requires k != "id" && forall j :: 0 <= j < |data| ==> k !in EmittedKeys(data[j].0, data[j].1)
    ensures Absent(Submission(mode, product, data, env), k)
  {
    var pre := IdPrefix(mode, product);
    NoEmitter(ProductFormRule, data, env, k);
  }

  /**
   * A stored falsy value falls through the `||` chain: a product whose stock
   * is 0 opens for editing with the previous input's stock, or with an empty
   * field, and its 0 is lost; a positive stock is kept.
   */
  lemma ZeroStockFallsThrough(p: Product, inputs: Entries)
    ensures p.stock == 0.0 ==> DefaultAt(Some(p), inputs, 5) ==
                               if IsTruthy(InputOf(inputs, "stock")) then InputOf(inputs, "stock") else Plain(Undefined)
    ensures p.stock == 0.0 ==> DefaultAt(Some(p), [], 5) == Plain(Undefined)
    ensures p.stock != 0.0 ==> DefaultAt(Some(p), inputs, 5) == Plain(Num(p.stock))
  {
  }

  /** Creating a product: every default is the previous input when that is truthy. */
  lemma CreateDefaultsFromInputs(inputs: Entries, i: nat)
    requires i < |FormKeys| && i != 8
    ensures IsTruthy(InputOf(inputs, FormKeys[i])) ==> DefaultAt(None, inputs, i) == InputOf(inputs, FormKeys[i])
    ensures !IsTruthy(InputOf(inputs, FormKeys[i])) ==> DefaultAt(None, inputs, i) == Fallback(i)
  {
  }

  /** A side of the dimensions default: a zero side is falsy and becomes `undefined`. */
  function StoredSide(x: real): Scalar {
    if x == 0.0 then Undefined else Num(x)
  }

  /**
   * The defaults for editing `p` with no previous inputs: texts and images
   * as stored, but a zero stock or side, and an empty material, replaced by
   * the fallback.
   */
  lemma EditDefaults(p: Product)
    ensures DefaultAt(Some(p), [], 0) == Plain(Str(p.title))
    ensures DefaultAt(Some(p), [], 5) == if p.stock == 0.0 then Plain(Undefined) else Plain(Num(p.stock))
    ensures DefaultAt(Some(p), [], 8) ==
      Dims(StoredSide(p.dimensions.width), StoredSide(p.dimensions.height), StoredSide(p.dimensions.depth))
    ensures DefaultAt(Some(p), [], 9) ==
      if p.material.Some? && p.material.value != "" then Plain(Str(p.material.value)) else Plain(Str(""))
    ensures DefaultAt(Some(p), [], 18) == List(Strs(p.images))
  {
    assert ProductValue(Some(p), 0) == Plain(Str(p.title));
    assert ProductValue(Some(p), 5) == Plain(Num(p.stock));
    assert ProductValue(Some(p), 9) == Plain(OptText(p.material));
    assert ProductValue(Some(p), 18) == List(Strs(p.images));
  }

  /** Entry `i` of `data` is field `i` of `defaultValues` for editing `p` with no previous inputs. */
  predicate EditLayout(p: Product, data: Entries, i: nat) {
    && WellKeyed(data) && |data| == |FormKeys| && i < |FormKeys|
    && data[i] == (FormKeys[i], DefaultAt(Some(p), [], i))
  }

  lemma EditReadsId(p: Product, env: Env, data: Entries)
    requires !IsBlank(p.id) && WellKeyed(data) && |data| == |FormKeys|
    requires forall j :: 0 <= j < |data| ==> data[j].0 == FormKeys[j]
    ensures ExtractFormData(Submission(Edit, Some(p), data, env)).id == Some(p.id)
  {
    forall j | 0 <= j < |data| ensures data[j].0 != "id" {
      FormKeysIndexed(j);
    }
    SubmittedId(Edit, Some(p), data, env);
  }

  lemma EditReadsTitleAndStock(p: Product, env: Env, data: Entries)
    requires EditLayout(p, data, 0) && EditLayout(p, data, 5)
    ensures var raw := ExtractFormData(Submission(Edit, Some(p), data, env));
      && raw.title == Str(p.title)
      && raw.stock == Str(if p.stock == 0.0 then "" else env.numberText(p.stock))
  {
    var fd := Submission(Edit, Some(p), data, env);
    EditDefaults(p);
    ReadBackPlain(Edit, Some(p), data, env, 0);
    ReadBackPlain(Edit, Some(p), data, env, 5);
    assert Get(fd, "title") == Some(p.title);
    assert Get(fd, "stock") == Some(if p.stock == 0.0 then "" else env.numberText(p.stock));
  }

  lemma EditReadsMaterial(p: Product, env: Env, data: Entries)
    requires EditLayout(p, data, 9)
    ensures ExtractFormData(Submission(Edit, Some(p), data, env)).material ==
      if p.material.Some? && !IsBlank(p.material.value) then p.material else None
  {
    var fd := Submission(Edit, Some(p), data, env);
    EditDefaults(p);
    ReadBackPlain(Edit, Some(p), data, env, 9);
    assert Get(fd, "material") == if p.material.Some? && p.material.value != "" then p.material else None;
  }

  lemma EditReadsWidth(p: Product, env: Env, data: Entries)
    requires EditLayout(p, data, 8)
    ensures ExtractFormData(Submission(Edit, Some(p), data, env)).dimensions.width ==
      Str(if p.dimensions.width == 0.0 then "0" else env.numberText(p.dimensions.width))
  {
    EditDefaults(p);
    assert data[8].1.width == StoredSide(p.dimensions.width);
    ReadBackSide(Edit, Some(p), data, env, 8, 0);
  }

  lemma EditReadsImages(p: Product, env: Env, data: Entries)
    requires EditLayout(p, data, 18)
    ensures ExtractFormData(Submission(Edit, Some(p), data, env)).images == p.images
  {
    var fd := Submission(Edit, Some(p), data, env);
    EditDefaults(p);
    ReadBackList(Edit, Some(p), data, env, 18);
    assert GetAll(fd, "images") == Texts(Strs(p.images), env) == p.images;
  }

  /**
   * Editing a product and submitting the defaults unchanged: the id, the
   * title, the material and the images come back as stored, but a stock of
   * 0 comes back as "" while a zero side comes back as "0".
   */
  lemma {:induction false} UnchangedEditResubmits(p: Product, env: Env)
    requires !IsBlank(p.id)
    ensures var raw := ExtractFormData(Submission(Edit, Some(p), Defaults(Some(p), []), env));
      && raw.id == Some(p.id)
      && raw.title == Str(p.title)
      && raw.stock == Str(if p.stock == 0.0 then "" else env.numberText(p.stock))
      && raw.dimensions.width == Str(if p.dimensions.width == 0.0 then "0" else env.numberText(p.dimensions.width))
      && raw.material == (if p.material.Some? && !IsBlank(p.material.value) then p.material else None)
      && raw.images == p.images
  {
    var data := Defaults(Some(p), []);
    FormKeysWellKeyed(Some(p), []);
    EditReadsId(p, env, data);
    EditReadsTitleAndStock(p, env, data);
    EditReadsMaterial(p, env, data);
    EditReadsWidth(p, env, data);
    EditReadsImages(p, env, data);
  }
}
