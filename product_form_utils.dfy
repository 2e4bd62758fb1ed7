/**
 * The form normaliser (src/utils/productForm.ts): reading a submitted
 * `FormData` into the raw string record, turning that record into typed
 * form inputs with defaults, and the deep removal of `undefined`/`null`
 * from a document tree.
 */
module ProductFormUtils {
  import opened Wrappers
  import opened JsRuntime
  import opened FormDataModel
  import opened Json

  datatype RawDimensions = RawDimensions(width: Scalar, height: Scalar, depth: Scalar)
  datatype RawMeta = RawMeta(createdAt: string, updatedAt: string)

  /**
   * `RawProductFormData`.  A field read with `formData.get(key) as string`
   * is a `Scalar` that is `Str` or, for a missing entry, `Null`; the fields
   * read through the blank-to-undefined helpers are `Option<string>`.
   */
  datatype RawProductFormData = RawProductFormData(
    id: Option<string>,
    title: Scalar,
    description: Scalar,
    category: Scalar,
    price: Scalar,
    stock: Scalar,
    tags: seq<string>,
    brand: Scalar,
    weight: Scalar,
    dimensions: RawDimensions,
    material: Option<string>,
    color: Option<string>,
    packQuantity: Option<string>,
    pageCount: Option<string>,
    discountPercentage: Option<string>,
    warrantyInformation: Scalar,
    shippingInformation: Scalar,
    availabilityStatus: Scalar,
    returnPolicy: Scalar,
    minimumOrderQuantity: Scalar,
    images: seq<string>,
    meta: RawMeta)

  /** `formData.get(key) as string`: the entry's text, or `null` when there is none. */
  function EntryText(fd: FormData, key: string): (r: Scalar)
    ensures r.Null? <==> Absent(fd, key)
    ensures r.Str? <==> Get(fd, key).Some?
    ensures r.Str? ==> r.s == Get(fd, key).value
  {
    GetFindsFirst(fd, key);
    match Get(fd, key)
    case Some(s) => Str(s)
    case None => Scalar.Null
  }

  /**
   * The `id` reading and the `getStringValue`/`getNumberValue` helpers
   * (identical): a missing or whitespace-only entry gives `undefined`,
   * anything else the original, untrimmed string.
   */
  function NonBlank(o: Option<string>): (r: Option<string>)
    ensures r.None? <==> (o.None? || IsBlank(o.value))
    ensures r.Some? ==> r == o
  {
    match o
    case Some(s) => if s != "" && !IsBlank(s) then Some(s) else None
    case None => None
  }

  /** `extractFormData`. */
  function ExtractFormData(fd: FormData): (r: RawProductFormData)
    ensures r.id.None? <==> (Get(fd, "id").None? || IsBlank(Get(fd, "id").value))
    ensures r.id.Some? ==> r.id == Get(fd, "id")
    ensures r.material.Some? ==> r.material == Get(fd, "material")
    ensures r.material.None? <==> (Get(fd, "material").None? || IsBlank(Get(fd, "material").value))
    ensures r.color.Some? ==> r.color == Get(fd, "color")
    ensures r.color.None? <==> (Get(fd, "color").None? || IsBlank(Get(fd, "color").value))
    ensures r.packQuantity.Some? ==> r.packQuantity == Get(fd, "packQuantity")
    ensures r.packQuantity.None? <==> (Get(fd, "packQuantity").None? || IsBlank(Get(fd, "packQuantity").value))
    ensures r.pageCount.Some? ==> r.pageCount == Get(fd, "pageCount")
    ensures r.pageCount.None? <==> (Get(fd, "pageCount").None? || IsBlank(Get(fd, "pageCount").value))
    ensures r.discountPercentage.Some? ==> r.discountPercentage == Get(fd, "discountPercentage")
    ensures r.discountPercentage.None? <==>
              (Get(fd, "discountPercentage").None? || IsBlank(Get(fd, "discountPercentage").value))
    ensures r.tags == GetAll(fd, "tags") && r.images == GetAll(fd, "images")
    ensures r.dimensions.width == EntryText(fd, "dimensions.width")
    ensures r.dimensions.height == EntryText(fd, "dimensions.height")
    ensures r.dimensions.depth == EntryText(fd, "dimensions.depth")
    ensures r.meta == RawMeta("", "")
  {
    RawProductFormData(
      id := NonBlank(Get(fd, "id")),
      title := EntryText(fd, "title"),
      description := EntryText(fd, "description"),
      category := EntryText(fd, "category"),
      price := EntryText(fd, "price"),
      stock := EntryText(fd, "stock"),
      tags := GetAll(fd, "tags"),
      brand := EntryText(fd, "brand"),
      weight := EntryText(fd, "weight"),
      dimensions := RawDimensions(
        EntryText(fd, "dimensions.width"),
        EntryText(fd, "dimensions.height"),
        EntryText(fd, "dimensions.depth")),
      material := NonBlank(Get(fd, "material")),
      color := NonBlank(Get(fd, "color")),
      packQuantity := NonBlank(Get(fd, "packQuantity")),
      pageCount := NonBlank(Get(fd, "pageCount")),
      discountPercentage := NonBlank(Get(fd, "discountPercentage")),
      warrantyInformation := EntryText(fd, "warrantyInformation"),
      shippingInformation := EntryText(fd, "shippingInformation"),
      availabilityStatus := EntryText(fd, "availabilityStatus"),
      returnPolicy := EntryText(fd, "returnPolicy"),
      minimumOrderQuantity := EntryText(fd, "minimumOrderQuantity"),
      images := GetAll(fd, "images"),
      meta := RawMeta("", ""))
  }

  // ---------------------------------------------------------------------
  // convertRawDataToInputs

  datatype InputDimensions = InputDimensions(width: real, height: real, depth: real)

  /**
   * The typed inputs `convertRawDataToInputs` returns.  An optional number
   * is `None` when `undefined`, `Some(None)` when it parsed to `NaN`.
   */
  datatype ProductInputs = ProductInputs(
    title: Scalar,
    description: Scalar,
    category: Scalar,
    price: real,
    discountPercentage: Option<Option<real>>,
    stock: int,
    brand: Scalar,
    weight: real,
    dimensions: InputDimensions,
    material: Option<string>,
    color: Option<string>,
    packQuantity: Option<Option<int>>,
    pageCount: Option<Option<int>>,
    warrantyInformation: Scalar,
    shippingInformation: Scalar,
    availabilityStatus: Scalar,
    returnPolicy: Scalar,
    minimumOrderQuantity: int,
    images: seq<string>,
    meta: RawMeta,
    id: Option<string>)

  /** `parseFloat(v)`: the argument is converted to a string first, so `null` and `undefined` give `NaN`. */
  function ParseFloatOf(v: Scalar, env: Env): Option<real> {
    if Nullish(v) then None else env.parseFloat(StringOf(v, env))
  }

  /** `parseInt(v)`, likewise. */
  function ParseIntOf(v: Scalar, env: Env): Option<int> {
    if Nullish(v) then None else env.parseInt(StringOf(v, env))
  }

  /** `n || fallback` for a parsed number: `NaN` and `0` fall through. */
  function RealOr(n: Option<real>, fallback: real): (r: real)
    ensures n.Some? && n.value != 0.0 ==> r == n.value
    ensures n.None? || n.value == 0.0 ==> r == fallback
  {
    match n
    case Some(x) => if x != 0.0 then x else fallback
    case None => fallback
  }

  function IntOr(n: Option<int>, fallback: int): (r: int)
    ensures n.Some? && n.value != 0 ==> r == n.value
    ensures n.None? || n.value == 0 ==> r == fallback
  {
    match n
    case Some(x) => if x != 0 then x else fallback
    case None => fallback
  }

  /** `s ? parse(s) : undefined` for an optional raw string: only a non-empty string is parsed. */
  function ParseIfPresent<T>(o: Option<string>, parse: string -> Option<T>): (r: Option<Option<T>>)
    ensures o.None? || o.value == "" ==> r.None?
    ensures o.Some? && o.value != "" ==> r == Some(parse(o.value))
  {
    match o
    case Some(s) => if s != "" then Some(parse(s)) else None
    case None => None
  }

  /** `s || undefined` for an optional raw string. */
  function EmptyToUndefined(o: Option<string>): (r: Option<string>)
    ensures r.None? <==> (o.None? || o.value == "")
    ensures r.Some? ==> r == o
  {
    match o
    case Some(s) => if s != "" then o else None
    case None => None
  }

  /** `convertRawDataToInputs`. */
  function ConvertRawDataToInputs(raw: RawProductFormData, env: Env): (r: ProductInputs)
    ensures r.id.None?
    ensures r.title == raw.title && r.description == raw.description && r.category == raw.category
    ensures r.brand == raw.brand && r.images == raw.images && r.meta == raw.meta
    ensures r.price == RealOr(ParseFloatOf(raw.price, env), 0.0)
    ensures r.weight == RealOr(ParseFloatOf(raw.weight, env), 0.0)
    ensures r.stock == IntOr(ParseIntOf(raw.stock, env), 0)
    ensures r.dimensions == InputDimensions(
              RealOr(ParseFloatOf(raw.dimensions.width, env), 0.0),
              RealOr(ParseFloatOf(raw.dimensions.height, env), 0.0),
              RealOr(ParseFloatOf(raw.dimensions.depth, env), 0.0))
    ensures r.minimumOrderQuantity == IntOr(ParseIntOf(raw.minimumOrderQuantity, env), 1)
    ensures r.discountPercentage == ParseIfPresent(raw.discountPercentage, env.parseFloat)
    ensures r.packQuantity == ParseIfPresent(raw.packQuantity, env.parseInt)
    ensures r.pageCount == ParseIfPresent(raw.pageCount, env.parseInt)
    ensures r.material == EmptyToUndefined(raw.material) && r.color == EmptyToUndefined(raw.color)
  {
    ProductInputs(
      title := raw.title,
      description := raw.description,
      category := raw.category,
      price := RealOr(ParseFloatOf(raw.price, env), 0.0),
      discountPercentage := ParseIfPresent(raw.discountPercentage, env.parseFloat),
      stock := IntOr(ParseIntOf(raw.stock, env), 0),
      brand := raw.brand,
      weight := RealOr(ParseFloatOf(raw.weight, env), 0.0),
      dimensions := InputDimensions(
        RealOr(ParseFloatOf(raw.dimensions.width, env), 0.0),
        RealOr(ParseFloatOf(raw.dimensions.height, env), 0.0),
        RealOr(ParseFloatOf(raw.dimensions.depth, env), 0.0)),
      material := EmptyToUndefined(raw.material),
      color := EmptyToUndefined(raw.color),
      packQuantity := ParseIfPresent(raw.packQuantity, env.parseInt),
      pageCount := ParseIfPresent(raw.pageCount, env.parseInt),
      warrantyInformation := raw.warrantyInformation,
      shippingInformation := raw.shippingInformation,
      availabilityStatus := raw.availabilityStatus,
      returnPolicy := raw.returnPolicy,
      minimumOrderQuantity := IntOr(ParseIntOf(raw.minimumOrderQuantity, env), 1),
      images := raw.images,
      meta := raw.meta,
      id := None)
  }

  /** Inputs built from a submission: the optional strings are never blank, so `||` keeps them. */
  lemma {:induction false} ExtractedOptionalsSurviveConversion(fd: FormData, env: Env)
    ensures ConvertRawDataToInputs(ExtractFormData(fd), env).material == ExtractFormData(fd).material
    ensures ConvertRawDataToInputs(ExtractFormData(fd), env).color == ExtractFormData(fd).color
    ensures ExtractFormData(fd).discountPercentage.None? ==>
              ConvertRawDataToInputs(ExtractFormData(fd), env).discountPercentage.None?
    ensures ExtractFormData(fd).discountPercentage.Some? ==>
              ConvertRawDataToInputs(ExtractFormData(fd), env).discountPercentage
                == Some(env.parseFloat(ExtractFormData(fd).discountPercentage.value))
  {
  }

  // ---------------------------------------------------------------------
  // removeUndefined

  /**
   * What `removeUndefined` computes.  `null` and `undefined` become
   * `undefined`; an array keeps, in order, the elements that do not clean
   * to `undefined`; an object keeps the entries that do not, and becomes
   * `undefined` if none is left.  A `Timestamp` is an object whose own
   * entries are `seconds` and `nanoseconds`.
   */
  function Cleaned(v: Value): (r: Value)
    ensures r != Nil
    ensures v.Arr? ==> r.Arr? && |r.items| <= |v.items|
    ensures v.Obj? ==> r == Undef || (r.Obj? && 0 < |r.members| <= |v.members|)
  {
    match v
    case Undef => Undef
    case Nil => Undef
    case Prim(_) => v
    case Ts(s, n) => Obj([Member("seconds", Prim(PNum(s as real))), Member("nanoseconds", Prim(PNum(n as real)))])
    case Arr(xs) => Arr(CleanedItems(xs))
    case Obj(ms) =>
      var cs := CleanedMembers(ms);
      if |cs| > 0 then Obj(cs) else Undef
  }

  function CleanedItems(xs: seq<Value>): (r: seq<Value>)
    ensures |r| <= |xs|
  {
    if xs == [] then []
    else
      var c := Cleaned(xs[0]);
      (if c == Undef then [] else [c]) + CleanedItems(xs[1..])
  }

  function CleanedMembers(ms: seq<Member>): (r: seq<Member>)
    ensures |r| <= |ms|
  {
    if ms == [] then []
    else
      var c := Cleaned(ms[0].value);
      (if c == Undef then [] else [Member(ms[0].key, c)]) + CleanedMembers(ms[1..])
  }

  /**
   * A tree with nothing left to remove: no `undefined`, no `null`, no
   * timestamp object and no empty object at any depth.
   */
  predicate IsClean(v: Value) {
    match v
    case Undef => false
    case Nil => false
    case Prim(_) => true
    case Ts(_, _) => false
    case Arr(xs) => forall x :: x in xs ==> IsClean(x)
    case Obj(ms) => |ms| > 0 && forall m :: m in ms ==> IsClean(m.value)
  }

  /** No `undefined` or `null` anywhere in the tree. */
  predicate NoNullish(v: Value) {
    match v
    case Undef => false
    case Nil => false
    case Arr(xs) => forall x :: x in xs ==> NoNullish(x)
    case Obj(ms) => forall m :: m in ms ==> NoNullish(m.value)
    case _ => true
  }

  lemma {:induction false} CleanHasNoNullish(v: Value)
    requires IsClean(v)
    ensures NoNullish(v)
  {
    match v
    case Arr(xs) =>
      forall x | x in xs ensures NoNullish(x) { CleanHasNoNullish(x); }
    case Obj(ms) =>
      forall m | m in ms ensures NoNullish(m.value) { CleanHasNoNullish(m.value); }
    case _ =>
  }

  /** The result of `removeUndefined` is `undefined` or a clean tree. */
  lemma {:induction false} CleanedIsClean(v: Value)
    ensures Cleaned(v) == Undef || IsClean(Cleaned(v))
    ensures Cleaned(v) != Undef ==> NoNullish(Cleaned(v))
  {
    match v {
      case Arr(xs) => CleanedItemsAreClean(xs);
      case Obj(ms) => CleanedMembersAreClean(ms);
      case _ =>
    }
    if Cleaned(v) != Undef { CleanHasNoNullish(Cleaned(v)); }
  }

  lemma {:induction false} CleanedItemsAreClean(xs: seq<Value>)
    ensures forall x :: x in CleanedItems(xs) ==> IsClean(x)
  {
    if xs != [] {
      CleanedIsClean(xs[0]);
      CleanedItemsAreClean(xs[1..]);
    }
  }

  lemma {:induction false} CleanedMembersAreClean(ms: seq<Member>)
    ensures forall m :: m in CleanedMembers(ms) ==> IsClean(m.value)
  {
    if ms != [] {
      CleanedIsClean(ms[0].value);
      CleanedMembersAreClean(ms[1..]);
    }
  }

  /** A clean tree is left as it is. */
  lemma {:induction false} CleanIsFixpoint(v: Value)
    requires IsClean(v)
    ensures Cleaned(v) == v
  {
    match v
    case Arr(xs) => CleanItemsFixpoint(xs);
    case Obj(ms) => CleanMembersFixpoint(ms);
    case _ =>
  }

  lemma {:induction false} CleanItemsFixpoint(xs: seq<Value>)
    requires forall x :: x in xs ==> IsClean(x)
    ensures CleanedItems(xs) == xs
  {
    if xs != [] {
      CleanIsFixpoint(xs[0]);
      CleanItemsFixpoint(xs[1..]);
    }
  }

  lemma {:induction false} CleanMembersFixpoint(ms: seq<Member>)
    requires forall m :: m in ms ==> IsClean(m.value)
    ensures CleanedMembers(ms) == ms
  {
    if ms != [] {
      CleanIsFixpoint(ms[0].value);
      CleanMembersFixpoint(ms[1..]);
    }
  }

  /** Applying `removeUndefined` twice gives the same result as once. */
  lemma CleanedIdempotent(v: Value)
    ensures Cleaned(Cleaned(v)) == Cleaned(v)
  {
    CleanedIsClean(v);
    if Cleaned(v) != Undef { CleanIsFixpoint(Cleaned(v)); }
  }

  /**
   * Primitives (including "", 0 and false) are returned unchanged; an
   * array never becomes `undefined`; an object becomes `undefined` exactly
   * when every one of its entries cleans to `undefined`.
   */
  lemma {:induction false} CleanedShape(v: Value)
    ensures v.Prim? ==> Cleaned(v) == v
    ensures v.Arr? ==> Cleaned(v).Arr? && (v.items == [] ==> Cleaned(v) == Arr([]))
    ensures v.Obj? ==> (Cleaned(v) == Undef <==> forall m :: m in v.members ==> Cleaned(m.value) == Undef)
  {
    if v.Obj? { CleanedMembersEmpty(v.members); }
  }

  lemma {:induction false} CleanedMembersEmpty(ms: seq<Member>)
    ensures CleanedMembers(ms) == [] <==> forall m :: m in ms ==> Cleaned(m.value) == Undef
  {
    if ms != [] {
      CleanedMembersEmpty(ms[1..]);
      assert forall m :: m in ms ==> m == ms[0] || m in ms[1..];
    }
  }

  /** Array cleaning works element by element, in order: it distributes over concatenation. */
  lemma {:induction false} CleanedItemsAppend(a: seq<Value>, b: seq<Value>)
    ensures CleanedItems(a + b) == CleanedItems(a) + CleanedItems(b)
  {
    if a == [] {
      assert a + b == b;
    } else {
      assert (a + b)[1..] == a[1..] + b;
      CleanedItemsAppend(a[1..], b);
    }
  }

  /** A single element is kept, cleaned, unless it cleans to `undefined`. */
  lemma CleanedItemsSingle(x: Value)
    ensures CleanedItems([x]) == if Cleaned(x) == Undef then [] else [Cleaned(x)]
  {
    assert [x][1..] == [];
  }

  /**
   * Every kept entry comes from the input with the same key and its value
   * cleaned, so distinct keys stay distinct.
   */
  lemma CleanedMembersFromInput(ms: seq<Member>)
    ensures forall m :: m in CleanedMembers(ms) ==>
              m.value != Undef && exists n :: n in ms && n.key == m.key && m.value == Cleaned(n.value)
    ensures DistinctKeys(ms) ==> DistinctKeys(CleanedMembers(ms))
  {
    CleanedMembersOrigin(ms);
    if DistinctKeys(ms) { CleanedMembersDistinct(ms); }
  }

  lemma {:induction false} CleanedMembersOrigin(ms: seq<Member>)
    ensures forall m :: m in CleanedMembers(ms) ==>
              m.value != Undef && exists n :: n in ms && n.key == m.key && m.value == Cleaned(n.value)
  {
    if ms != [] {
      CleanedMembersOrigin(ms[1..]);
      var c := Cleaned(ms[0].value);
      var head := if c == Undef then [] else [Member(ms[0].key, c)];
      assert CleanedMembers(ms) == head + CleanedMembers(ms[1..]);
      assert forall n :: n in ms[1..] ==> n in ms;
    }
  }

  lemma {:induction false} CleanedMembersDistinct(ms: seq<Member>)
    requires DistinctKeys(ms)
    ensures DistinctKeys(CleanedMembers(ms))
  {
    if ms != [] {
      var rest := CleanedMembers(ms[1..]);
      TailKeysDistinct(ms);
      CleanedMembersDistinct(ms[1..]);
      var c := Cleaned(ms[0].value);
      if c != Undef {
        CleanedMembersOrigin(ms[1..]);
        HeadKeyNotInTail(ms);
        forall m | m in rest ensures m.key != ms[0].key {
          var n :| n in ms[1..] && n.key == m.key && m.value == Cleaned(n.value);
        }
        ConsDistinctKeys(Member(ms[0].key, c), rest);
      }
      assert CleanedMembers(ms) == (if c == Undef then [] else [Member(ms[0].key, c)]) + rest;
    }
  }

  lemma TailKeysDistinct(ms: seq<Member>)
    requires DistinctKeys(ms) && ms != []
    ensures DistinctKeys(ms[1..])
  {
    forall i, j | 0 <= i < j < |ms[1..]| ensures ms[1..][i].key != ms[1..][j].key {
      assert ms[1..][i] == ms[i + 1] && ms[1..][j] == ms[j + 1];
    }
  }

  lemma HeadKeyNotInTail(ms: seq<Member>)
    requires DistinctKeys(ms) && ms != []
    ensures forall n :: n in ms[1..] ==> n.key != ms[0].key
  {
    forall n | n in ms[1..] ensures n.key != ms[0].key {
      var k :| 0 <= k < |ms[1..]| && ms[1..][k] == n;
      assert ms[k + 1] == n;
    }
  }

  lemma ConsDistinctKeys(x: Member, rest: seq<Member>)
    requires DistinctKeys(rest)
    requires forall m :: m in rest ==> m.key != x.key
    ensures DistinctKeys([x] + rest)
  {
    var r := [x] + rest;
    forall i, j | 0 <= i < j < |r| ensures r[i].key != r[j].key {
      if i == 0 { assert r[j] in rest; } else { assert r[i] == rest[i - 1] && r[j] == rest[j - 1]; }
    }
  }


  /** `removeUndefined`: the loop over an object's entries fills the local `cleaned` object. */
  method RemoveUndefined(v: Value) returns (r: Value)
    ensures r == Cleaned(v)
    decreases v, 1
  {
    match v {
      case Undef => r := Undef;
      case Nil => r := Undef;
      case Arr(xs) =>
        var kept := RemoveUndefinedItems(xs);
        r := Arr(kept);
      case Obj(ms) =>
        var cleaned := RemoveUndefinedMembers(ms);
        r := if |cleaned| > 0 then Obj(cleaned) else Undef;
      case Ts(s, n) =>
        r := Obj([Member("seconds", Prim(PNum(s as real))), Member("nanoseconds", Prim(PNum(n as real)))]);
      case Prim(_) => r := v;
    }
  }

  /** The `map(removeUndefined).filter(...)` over an array's elements. */
  method RemoveUndefinedItems(xs: seq<Value>) returns (kept: seq<Value>)
    ensures kept == CleanedItems(xs)
    decreases xs, 0
  {
    kept := [];
    var i := 0;
    while i < |xs|
      invariant 0 <= i <= |xs|
      invariant kept + CleanedItems(xs[i..]) == CleanedItems(xs)
    {
      var c := RemoveUndefined(xs[i]);
      assert xs[i..] == [xs[i]] + xs[i + 1..];
      if c != Undef {
        kept := kept + [c];
      }
      i := i + 1;
    }
    assert xs[i..] == [];
  }

  /** The `for ... of Object.entries(obj)` loop that assigns the kept keys of `cleaned`. */
  method RemoveUndefinedMembers(ms: seq<Member>) returns (cleaned: seq<Member>)
    ensures cleaned == CleanedMembers(ms)
    decreases ms, 0
  {
    cleaned := [];
    var i := 0;
    while i < |ms|
      invariant 0 <= i <= |ms|
      invariant cleaned + CleanedMembers(ms[i..]) == CleanedMembers(ms)
    {
      assert ms[i] in ms;
      var c := RemoveUndefined(ms[i].value);
      MembersLoopStep(cleaned, ms, i);
      if c != Undef {
        cleaned := cleaned + [Member(ms[i].key, c)];
      }
      i := i + 1;
    }
    assert ms[i..] == [];
  }

  /** The loop invariant of `RemoveUndefinedMembers` survives one entry. */
  lemma MembersLoopStep(prefix: seq<Member>, ms: seq<Member>, i: nat)
    requires i < |ms| && prefix + CleanedMembers(ms[i..]) == CleanedMembers(ms)
    ensures var c := Cleaned(ms[i].value);
      (if c == Undef then prefix else prefix + [Member(ms[i].key, c)]) + CleanedMembers(ms[i + 1..]) == CleanedMembers(ms)
  {
    CleanedMembersStep(ms, i);
    var c := Cleaned(ms[i].value);
    var tail := CleanedMembers(ms[i + 1..]);
    if c != Undef {
      var x := Member(ms[i].key, c);
      assert prefix + [x] + tail == prefix + ([x] + tail);
    } else {
      assert [] + tail == tail;
    }
  }

  /** One loop step: the entries from position i on clean to entry i's part followed by the rest's. */
  lemma CleanedMembersStep(ms: seq<Member>, i: nat)
    requires i < |ms|
    ensures CleanedMembers(ms[i..]) ==
              (if Cleaned(ms[i].value) == Undef then [] else [Member(ms[i].key, Cleaned(ms[i].value))])
              + CleanedMembers(ms[i + 1..])
  {
    assert ms[i..][0] == ms[i] && ms[i..][1..] == ms[i + 1..];
  }
}
