/**
 * What the two admin `onSubmit` handlers share: the form's values as
 * `Object.entries(data)`, and how one entry becomes FormData entries.  A
 * `dimensions` object becomes three dotted entries, an array one entry per
 * element; the handlers differ only in which scalars they skip.
 */
module FormSubmission {
  import opened Wrappers
  import opened JsRuntime
  import opened FormDataModel

  /** A value react-hook-form hands to `onSubmit`: a scalar, an array, or a dimensions-shaped object. */
  datatype FieldValue =
    | Plain(v: Scalar)
    | List(items: seq<Scalar>)
    | Dims(width: Scalar, height: Scalar, depth: Scalar)

  /** `Object.entries(data)` for the submitted `Partial<Product>`. */
  type Entries = seq<(string, FieldValue)>

  /** `state?.inputs?.[key]`: the previous submission's echoed value (`state.inputs` is the action's echo), `undefined` when there is none. */
  function InputOf(inputs: Entries, key: string): (r: FieldValue)
    ensures (forall i :: 0 <= i < |inputs| ==> inputs[i].0 != key) ==> r == Plain(Undefined)
  {
    if inputs == [] then Plain(Undefined)
    else if inputs[0].0 == key then inputs[0].1
    else InputOf(inputs[1..], key)
  }

  /** A select option, `{ value, label }`. */
  datatype SelectOption = SelectOption(value: string, labelText: string)

  /** The scalar rule of `ProductForm.tsx` or of the older `new/page.tsx`. */
  datatype Style = ProductFormRule | NewPageRule

  /** The fields `ProductForm.tsx` omits when they are `undefined`, `null` or `""`. */
  const OptionalFields: seq<string> := ["material", "color", "packQuantity", "pageCount", "discountPercentage"]

  /** The dotted names a dimensions object is written under. */
  const DimensionKeys: seq<string> := ["dimensions.width", "dimensions.height", "dimensions.depth"]

  /** `String(side ?? 0)`. */
  function SideText(side: Scalar, env: Env): (t: string)
    ensures Nullish(side) ==> t == "0"
    ensures !Nullish(side) ==> t == StringOf(side, env)
  {
    if Nullish(side) then "0" else StringOf(side, env)
  }

  /** `String(value)` for a value that is not an array; an object prints as "[object Object]". */
  function TextOf(fv: FieldValue, env: Env): string {
    match fv
    case Plain(v) => StringOf(v, env)
    case List(_) => ""
    case Dims(_, _, _) => "[object Object]"
  }

  predicate IsNullishValue(fv: FieldValue) {
    fv.Plain? && Nullish(fv.v)
  }

  /** One element per array item, in order: `formData.append(key, String(v))`. */
  function ListEntries(key: string, items: seq<Scalar>, env: Env): (r: FormData)
    ensures |r| == |items| && forall i :: 0 <= i < |items| ==> r[i] == (key, StringOf(items[i], env))
  {
    if items == [] then [] else [(key, StringOf(items[0], env))] + ListEntries(key, items[1..], env)
  }

  /** `String(v)` of every array item, in order. */
  function Texts(items: seq<Scalar>, env: Env): (r: seq<string>)
    ensures |r| == |items| && forall i :: 0 <= i < |items| ==> r[i] == StringOf(items[i], env)
  {
    if items == [] then [] else [StringOf(items[0], env)] + Texts(items[1..], env)
  }

  /** Reading an array back with `getAll` gives its items' texts, in order. */
  lemma {:induction false} ListEntriesReadBack(key: string, items: seq<Scalar>, env: Env)
    ensures GetAll(ListEntries(key, items, env), key) == Texts(items, env)
    ensures items != [] ==> Get(ListEntries(key, items, env), key) == Some(StringOf(items[0], env))
    ensures items == [] ==> Absent(ListEntries(key, items, env), key)
  {
    if items != [] {
      ListEntriesReadBack(key, items[1..], env);
    }
  }

  /** The FormData entries one `[key, value]` pair of `Object.entries(data)` produces. */
  function EmitEntry(style: Style, key: string, fv: FieldValue, env: Env): (r: FormData)
    ensures EntryCount(style, key, fv, |r|)
  {
    if key == "dimensions" && fv.Dims? then
      [ ("dimensions.width", SideText(fv.width, env)),
        ("dimensions.height", SideText(fv.height, env)),
        ("dimensions.depth", SideText(fv.depth, env)) ]
    else if fv.List? then ListEntries(key, fv.items, env)
    else
      match style
      case ProductFormRule =>
        if key in OptionalFields then
          (if IsNullishValue(fv) || fv == Plain(Str("")) then [] else [(key, TextOf(fv, env))])
        else
          [(key, if IsNullishValue(fv) then "" else TextOf(fv, env))]
      case NewPageRule =>
        if IsNullishValue(fv) then [] else [(key, TextOf(fv, env))]
  }

  /**
   * How many FormData entries one pair writes: three for a dimensions
   * object, one per item for an array, and for anything else at most one,
   * exactly one for a field `ProductForm.tsx` does not treat as optional,
   * and none for a nullish value under the older page's rule.
   */
  predicate EntryCount(style: Style, key: string, fv: FieldValue, n: nat) {
    && (key == "dimensions" && fv.Dims? ==> n == 3)
    && (fv.List? ==> n == |fv.items|)
    && (!fv.List? && !(key == "dimensions" && fv.Dims?) ==> n <= 1)
    && (!fv.List? && !(key == "dimensions" && fv.Dims?) && style == ProductFormRule && key !in OptionalFields ==> n == 1)
    && (!fv.List? && style == NewPageRule && IsNullishValue(fv) ==> n == 0)
  }

  /** The entries appended for the whole of `data`, in entry order. */
  function Emit(style: Style, data: Entries, env: Env): FormData {
    if data == [] then [] else EmitEntry(style, data[0].0, data[0].1, env) + Emit(style, data[1..], env)
  }

  /** The names an entry can be written under. */
  function EmittedKeys(key: string, fv: FieldValue): set<string> {
    if key == "dimensions" && fv.Dims? then set k | k in DimensionKeys else {key}
  }

  /** Keys are distinct, and none is "id" or one of the dotted dimension names. */
  predicate WellKeyed(data: Entries) {
    && (forall i, j :: 0 <= i < j < |data| ==> data[i].0 != data[j].0)
    && (forall i :: 0 <= i < |data| ==> data[i].0 != "id" && data[i].0 !in DimensionKeys)
  }

  /** A `dimensions` object is written as exactly three entries, "0" standing for a missing side. */
  lemma DimensionsEntries(style: Style, w: Scalar, h: Scalar, d: Scalar, env: Env)
    ensures var r := EmitEntry(style, "dimensions", Dims(w, h, d), env);
      && |r| == 3
      && r[0] == ("dimensions.width", if Nullish(w) then "0" else StringOf(w, env))
      && r[1] == ("dimensions.height", if Nullish(h) then "0" else StringOf(h, env))
      && r[2] == ("dimensions.depth", if Nullish(d) then "0" else StringOf(d, env))
  {
  }

  /** An entry only ever writes under its emitted names. */
  lemma {:induction false} EmitEntryKeys(style: Style, key: string, fv: FieldValue, env: Env, name: string)
    requires name !in EmittedKeys(key, fv)
    ensures Absent(EmitEntry(style, key, fv, env), name)
  {
  }

  /** `Emit` distributes over concatenation of the entries. */
  lemma {:induction false} EmitAppend(style: Style, a: Entries, b: Entries, env: Env)
    ensures Emit(style, a + b, env) == Emit(style, a, env) + Emit(style, b, env)
  {
    if a == [] {
      assert a + b == b;
    } else {
      assert (a + b)[1..] == a[1..] + b;
      EmitAppend(style, a[1..], b, env);
    }
  }

  /** When no entry writes under `name`, `name` is absent from the FormData. */
  lemma {:induction false} NoEmitter(style: Style, data: Entries, env: Env, name: string)
    requires forall j :: 0 <= j < |data| ==> name !in EmittedKeys(data[j].0, data[j].1)
    ensures Absent(Emit(style, data, env), name)
  {
    if data != [] {
      EmitEntryKeys(style, data[0].0, data[0].1, env, name);
      NoEmitter(style, data[1..], env, name);
    }
  }

  /** When only entry `i` writes under `name`, `get` and `getAll` see only what entry `i` wrote. */
  lemma {:induction false} SingleEmitter(style: Style, data: Entries, i: nat, env: Env, name: string)
    requires i < |data|
    requires forall j :: 0 <= j < |data| && j != i ==> name !in EmittedKeys(data[j].0, data[j].1)
    ensures Get(Emit(style, data, env), name) == Get(EmitEntry(style, data[i].0, data[i].1, env), name)
    ensures GetAll(Emit(style, data, env), name) == GetAll(EmitEntry(style, data[i].0, data[i].1, env), name)
  {
    var head := EmitEntry(style, data[0].0, data[0].1, env);
    LookupAppend(head, Emit(style, data[1..], env), name);
    if i == 0 {
      NoEmitter(style, data[1..], env, name);
      LookupAbsent(Emit(style, data[1..], env), name);
      assert Get(head + [], name) == Get(head, name) by { LookupAppend(head, [], name); assert head + [] == head; }
      assert GetAll(head + [], name) == GetAll(head, name) by { LookupAppend(head, [], name); assert head + [] == head; }
    } else {
      EmitEntryKeys(style, data[0].0, data[0].1, env, name);
      LookupAbsent(head, name);
      SingleEmitter(style, data[1..], i - 1, env, name);
    }
  }

  /** In a well-keyed list, an entry whose key is `name` is the only one that writes under `name`. */
  lemma OnlyOwnKey(data: Entries, i: nat)
    requires WellKeyed(data) && i < |data|
    requires !(data[i].0 == "dimensions" && data[i].1.Dims?)
    ensures forall j :: 0 <= j < |data| && j != i ==> data[i].0 !in EmittedKeys(data[j].0, data[j].1)
  {
  }

  /** In a well-keyed list, only the `dimensions` object writes under the dotted names. */
  lemma OnlyDimensions(data: Entries, i: nat, name: string)
    requires WellKeyed(data) && i < |data| && data[i].0 == "dimensions" && data[i].1.Dims?
    requires name in DimensionKeys
    ensures forall j :: 0 <= j < |data| && j != i ==> name !in EmittedKeys(data[j].0, data[j].1)
  {
  }

  /** `value.forEach((v) => formData.append(key, String(v)))`. */
  method AppendItems(key: string, items: seq<Scalar>, env: Env, start: FormData) returns (fd: FormData)
    ensures fd == start + ListEntries(key, items, env)
  {
    fd := start;
    var j := 0;
    assert items[j..] == items;
    while j < |items|
      invariant 0 <= j <= |items|
      invariant fd + ListEntries(key, items[j..], env) == start + ListEntries(key, items, env)
    {
      assert items[j..][1..] == items[j + 1..];
      fd := fd + [(key, StringOf(items[j], env))];
      j := j + 1;
    }
    assert items[j..] == [];
  }

  /** The body of the `forEach` callback for one `[key, value]` pair. */
  method AppendEntry(style: Style, key: string, value: FieldValue, env: Env, start: FormData) returns (fd: FormData)
    ensures fd == start + EmitEntry(style, key, value, env)
  {
    fd := start;
    if key == "dimensions" && value.Dims? {
      fd := fd + [("dimensions.width", SideText(value.width, env))];
      fd := fd + [("dimensions.height", SideText(value.height, env))];
      fd := fd + [("dimensions.depth", SideText(value.depth, env))];
    } else if value.List? {
      fd := AppendItems(key, value.items, env, fd);
    } else if style == ProductFormRule {
      if key in OptionalFields {
        if !(IsNullishValue(value) || value == Plain(Str(""))) {
          fd := fd + [(key, TextOf(value, env))];
        }
      } else {
        fd := fd + [(key, if IsNullishValue(value) then "" else TextOf(value, env))];
      }
    } else if !IsNullishValue(value) {
      fd := fd + [(key, TextOf(value, env))];
    }
  }

  lemma EmitStep(style: Style, data: Entries, i: nat, env: Env)
    requires i < |data|
    ensures Emit(style, data[i..], env) == EmitEntry(style, data[i].0, data[i].1, env) + Emit(style, data[i + 1..], env)
  {
    assert data[i..][1..] == data[i + 1..];
  }

  lemma EntriesLoopStep(style: Style, data: Entries, i: nat, env: Env, start: FormData, fd: FormData)
    requires i < |data| && fd + Emit(style, data[i..], env) == start + Emit(style, data, env)
    ensures (fd + EmitEntry(style, data[i].0, data[i].1, env)) + Emit(style, data[i + 1..], env) == start + Emit(style, data, env)
  {
    EmitStep(style, data, i, env);
    var written, rest := EmitEntry(style, data[i].0, data[i].1, env), Emit(style, data[i + 1..], env);
    assert (fd + written) + rest == fd + (written + rest);
  }

  /**
   * The `Object.entries(data).forEach(...)` loop, appending to `start`: each
   * entry's FormData entries are added at the end, in entry order.
   */
  method AppendEntries(style: Style, data: Entries, env: Env, start: FormData) returns (fd: FormData)
    ensures fd == start + Emit(style, data, env)
  {
    fd := start;
    var i := 0;
    assert data[i..] == data;
    while i < |data|
      invariant 0 <= i <= |data|
      invariant fd + Emit(style, data[i..], env) == start + Emit(style, data, env)
    {
      EntriesLoopStep(style, data, i, env, start, fd);
      fd := AppendEntry(style, data[i].0, data[i].1, env, fd);
      i := i + 1;
    }
    assert data[i..] == [];
  }
}
