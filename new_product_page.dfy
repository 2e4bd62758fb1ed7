/**
 * The older create page (src/app/admin/products/new/page.tsx): its default
 * values, its `onSubmit` serialiser, and the category options of its select.
 */
module NewProductPage {
  import opened Wrappers
  import opened JsRuntime
  import opened FormDataModel
  import opened ProductTypes
  import opened ProductFormUtils
  import opened FormSubmission
  import ProductSchema

  /** The fields the page's `defaultValues` names, in order; the last, `tags`, is copied as it is. */
  const PageKeys: seq<string> := ["title", "description", "category", "price", "availabilityStatus", "returnPolicy", "tags"]

  /** `state?.inputs?.[key] ?? undefined`: a `null` previous input becomes `undefined`, any other is kept. */
  function KeepInput(inputs: Entries, key: string): (r: FieldValue)
    ensures IsNullishValue(r) ==> r == Plain(Undefined)
    ensures !IsNullishValue(InputOf(inputs, key)) ==> r == InputOf(inputs, key)
  {
    if IsNullishValue(InputOf(inputs, key)) then Plain(Undefined) else InputOf(inputs, key)
  }

  /** `defaultValues`. */
  function Defaults(inputs: Entries): (r: Entries)
    ensures |r| == |PageKeys| && forall i :: 0 <= i < |r| ==> r[i].0 == PageKeys[i]
  {
    [ ("title", KeepInput(inputs, "title")),
      ("description", KeepInput(inputs, "description")),
      ("category", KeepInput(inputs, "category")),
      ("price", KeepInput(inputs, "price")),
      ("availabilityStatus", KeepInput(inputs, "availabilityStatus")),
      ("returnPolicy", KeepInput(inputs, "returnPolicy")),
      ("tags", InputOf(inputs, "tags")) ]
  }

  /**
   * A present previous input is kept even when it is falsy (`""`, 0):
   * `??` only replaces `null` and `undefined`, and those both become
   * `undefined`.
   */
  lemma DefaultsKeepInputs(inputs: Entries, i: nat)
    requires i < |PageKeys|
    ensures var d := Defaults(inputs)[i].1;
      var prev := InputOf(inputs, PageKeys[i]);
      && (!IsNullishValue(prev) ==> d == prev)
      && (IsNullishValue(prev) ==> d == if i == 6 then prev else Plain(Undefined))
  {
    if i == 0 {} else if i == 1 {} else if i == 2 {} else if i == 3 {} else if i == 4 {} else if i == 5 {} else {}
  }

  /** The FormData the page's `onSubmit` hands to the server action. */
  function Submission(data: Entries, env: Env): FormData {
    Emit(NewPageRule, data, env)
  }

  /** `onSubmit` up to `formAction(formData)`. */
  method OnSubmit(data: Entries, env: Env) returns (fd: FormData)
    ensures fd == Submission(data, env)
  {
    fd := AppendEntries(NewPageRule, data, env, []);
    assert [] + Emit(NewPageRule, data, env) == Emit(NewPageRule, data, env);
  }

  /** No "id" entry is ever produced, so `extractFormData` reads no id. */
  lemma {:induction false} NeverSendsId(data: Entries, env: Env)
    requires forall j :: 0 <= j < |data| ==> data[j].0 != "id"
    ensures Absent(Submission(data, env), "id")
    ensures ExtractFormData(Submission(data, env)).id.None?
  {
    forall j | 0 <= j < |data| ensures "id" !in EmittedKeys(data[j].0, data[j].1) {
      assert "id" !in DimensionKeys;
    }
    NoEmitter(NewPageRule, data, env, "id");
    LookupAbsent(Submission(data, env), "id");
  }

  /**
   * A scalar is left out only when it is `null` or `undefined`; `""` and
   * every other value is sent as its text, optional field or not.
   */
  lemma ReadBackScalar(data: Entries, env: Env, i: nat)
    requires WellKeyed(data) && i < |data| && data[i].1.Plain?
    ensures Get(Submission(data, env), data[i].0) ==
      if Nullish(data[i].1.v) then None else Some(StringOf(data[i].1.v, env))
  {
    OnlyOwnKey(data, i);
    SingleEmitter(NewPageRule, data, i, env, data[i].0);
  }

  /** An array comes back from `getAll` as its items' texts, in order. */
  lemma ReadBackList(data: Entries, env: Env, i: nat)
    requires WellKeyed(data) && i < |data| && data[i].1.List?
    ensures GetAll(Submission(data, env), data[i].0) == Texts(data[i].1.items, env)
  {
    OnlyOwnKey(data, i);
    SingleEmitter(NewPageRule, data, i, env, data[i].0);
    ListEntriesReadBack(data[i].0, data[i].1.items, env);
  }

  /** A dimensions object comes back as three strings, "0" standing for a missing side. */
  lemma ReadBackDimensions(data: Entries, env: Env, i: nat, side: nat)
    requires WellKeyed(data) && i < |data| && data[i].0 == "dimensions" && data[i].1.Dims? && side < 3
    ensures Get(Submission(data, env), DimensionKeys[side]) ==
      Some(SideText(if side == 0 then data[i].1.width else if side == 1 then data[i].1.height else data[i].1.depth, env))
  {
    var key := DimensionKeys[side];
    var written := EmitEntry(NewPageRule, "dimensions", data[i].1, env);
    OnlyDimensions(data, i, key);
    SingleEmitter(NewPageRule, data, i, env, key);
    if side == 1 {
      assert written[0].0 != key;
      assert Get(written, key) == Get(written[1..], key);
    } else if side == 2 {
      assert written[0].0 != key && written[1].0 != key;
      assert Get(written, key) == Get(written[1..], key) == Get(written[1..][1..], key);
    }
  }

  /** An empty optional text reaches `extractFormData` as "" and is read back as missing there. */
  lemma EmptyMaterialIsSent(data: Entries, env: Env, i: nat)
    requires WellKeyed(data) && i < |data| && data[i] == ("material", Plain(Str("")))
    ensures Get(Submission(data, env), "material") == Some("")
    ensures ExtractFormData(Submission(data, env)).material.None?
  {
    ReadBackScalar(data, env, i);
  }

  /** `allCategories.map((category) => ({ value: category, label: category }))`. */
  function CategoryOptions(): (r: seq<SelectOption>)
    ensures |r| == |CategoryOrder|
    ensures forall i :: 0 <= i < |r| ==> r[i] == SelectOption(CategoryOrder[i].Key(), CategoryOrder[i].Key())
  {
    seq(|AllCategories()|, i requires 0 <= i < |AllCategories()| => SelectOption(AllCategories()[i], AllCategories()[i]))
  }

  /** Every category the select offers is an enum key, which the schema's category rule rejects. */
  lemma CategoryOptionsRejected()
    ensures forall o :: o in CategoryOptions() ==> ProductSchema.CheckCategory(Str(o.value)).Failed?
  {
    KeyListsAreNotValues();
    forall o | o in CategoryOptions() ensures ProductSchema.CheckCategory(Str(o.value)).Failed? {
      var i :| 0 <= i < |CategoryOptions()| && CategoryOptions()[i] == o;
      assert o.value == AllCategories()[i];
    }
  }

  /** The options as `ProductForm.tsx` builds them, from `Object.values(Category)`. */
  function CategoryValueOptions(): (r: seq<SelectOption>)
    ensures |r| == |CategoryOrder|
    ensures forall i :: 0 <= i < |r| ==> r[i] == SelectOption(CategoryOrder[i].Value(), CategoryOrder[i].Value())
  {
    seq(|CategoryOrder|, i requires 0 <= i < |CategoryOrder| => SelectOption(CategoryOrder[i].Value(), CategoryOrder[i].Value()))
  }

  /** Every value-based option passes the category rule, as that category, and every category is offered. */
  lemma CategoryValueOptionsAccepted()
    ensures forall o :: o in CategoryValueOptions() ==> ProductSchema.CheckCategory(Str(o.value)).Passed?
    ensures forall c: Category :: SelectOption(c.Value(), c.Value()) in CategoryValueOptions()
  {
    CategoryValuesDistinct();
    forall o | o in CategoryValueOptions() ensures ProductSchema.CheckCategory(Str(o.value)).Passed? {
      var i :| 0 <= i < |CategoryValueOptions()| && CategoryValueOptions()[i] == o;
      assert CategoryOrder[i].Value() == o.value;
    }
    forall c: Category ensures SelectOption(c.Value(), c.Value()) in CategoryValueOptions() {
      assert c in CategoryOrder;
      var i :| 0 <= i < |CategoryOrder| && CategoryOrder[i] == c;
      assert CategoryValueOptions()[i] == SelectOption(c.Value(), c.Value());
    }
  }
}
