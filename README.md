# Admin product pipeline and shopping cart of the stationery shop

This project is a Dafny model of the core of a Next.js stationery web shop. It models the product records and their enums. It models the path an admin's product takes: the form's default values, the serialisation of the form into FormData (field entries), the decoding on the server (`extractFormData`, `convertRawDataToInputs`, `removeUndefined`), the zod product schema with its transforms, and the older server action that creates a product. It also models the Firestore read helpers, the shopping cart context, the display formatters and the category card's image and link. The properties stated about the model are these:

- the form round-trips: what the admin form writes is what `extractFormData` reads back;
- the schema reports exactly the broken fields, and accepts exactly the admissible inputs;
- `removeUndefined` and `convertTimestamps` are idempotent, and their results are clean;
- the query helpers put the document id first (in insertion order) and keep the stored fields;
- the cart keeps its lines' ids distinct, and each cart operation changes the totals by the expected amount;
- the formatters produce the strings their bodies promise;
- every category has a distinct image and a distinct link slug.

Modules, one per source file of the core plus shared vocabulary:

- `JsRuntime` (js.dfy): the JavaScript values a form field or a zod input can hold (`Scalar`: undefined, null, string, number, NaN, boolean), truthiness, nullishness and `String(x)`. The runtime primitives the code calls (`Number()`, `parseFloat`, `parseInt`, `String(number)`, `toFixed(2)`, zod's URL check, membership in the `Tag` enum, `Date.toISOString`) are fields of an `Env` value passed in as a parameter.
- `Wrappers` (wrappers.dfy): `Option`.
- `FormDataModel` (form_data.dfy): a `FormData` as the sequence of its entries, with `get` (the first match) and `getAll`.
- `Json` (json.dfy): a JSON-like tree (`Undef`, `Nil`, primitives, Firestore timestamps, arrays, objects as member sequences) for the functions that walk arbitrary data.
- `ProductTypes` (product_types.dfy): `Category`, `AvailabilityStatus`, `ReturnPolicy` with their string values and key names, `Dimensions`, `Meta` and `Product`. Optional fields are `Option`s.
- `ProductSchema` (product_schema.dfy): the zod `productSchema` and `editProductSchema`, including what `safeParse` reports per field and the transforms that throw.
- `ProductFormUtils` (product_form_utils.dfy): `extractFormData`, `convertRawDataToInputs` and `removeUndefined`. The recursive cleaner is a method proved against the function `Cleaned`.
- `FormSubmission` (form_submission.dfy): the shared FormData serialiser behind both `onSubmit` handlers, written as methods with loops over `Object.entries(data)`.
- `AdminProductForm` (admin_product_form.dfy): `ProductForm.tsx`'s default values, for creating and for editing, and its `onSubmit`.
- `NewProductPage` (new_product_page.dfy): the new-product page's default values, its `onSubmit` and its category options.
- `NewProductAction` (new_product_action.dfy): `AddNewProductAction`, with its own schema, the seven fields it reads and the form state it returns. The Firestore write is a boolean parameter.
- `ProductQueries` (product_queries.dfy): `convertTimestamps` (a method proved against `Converted`), and `getProductsByCategory`, `getProductById` and `getAllProducts` over a store read passed in as a parameter.
- `ShoppingCart` (cart.dfy): `CartProvider` as a class whose `cart` field the methods reassign, specified by functions on the old cart.
- `Formatters` (formatters.dfy): `formatPrice` … `getProductDisplayTitle`.
- `CategoryCard` (category_card.dfy): `getCategoryImage`, the slug and the link.

## Model

| member | source | states |
|---|---|---|
| ProductTypes.AllCategories | src/types/product.ts:35 | `allCategories` is the list of Category key names, in declaration order |
| ProductTypes.AllAvailabilityStatuses | src/types/product.ts:42 | the availability key list is the key names, in order |
| ProductTypes.AllReturnPolicies | src/types/product.ts:53 | the return-policy key list is the key names, in order |
| ProductTypes.CategoryFromValue | src/types/product.ts:27-33 | finds the category whose string value is the input, and returns None exactly when no category has that value |
| ProductTypes.AvailabilityFromValue | src/types/product.ts:37-40 | the same lookup for availability values |
| ProductTypes.ReturnPolicyFromValue | src/types/product.ts:44-51 | the same lookup for return-policy values |
| ProductTypes.CategoryValuesDistinct | src/types/product.ts:27-33 | the five category values are pairwise distinct, and the order lists each category once |
| ProductTypes.AvailabilityValues | src/types/product.ts:37-40 | the availability values are exactly "In Stock" and "Out of Stock", and they are distinct |
| ProductTypes.ReturnPolicyValuesDistinct | src/types/product.ts:44-51 | the six return-policy values are distinct, and each is listed once |
| ProductTypes.KeyListsAreNotValues | src/types/product.ts:35-53 | no key name in the exported key lists is a value of its enum, so a nativeEnum check rejects every one of them |
| JsRuntime.Coalesce | src/app/admin/products/new/page.tsx:56-64 | `a ?? b` is `a` unless `a` is null or undefined |
| JsRuntime.Utf16Length | src/validations/productSchema.ts:11-12 | the `.length` zod's `min` and `max` compare: UTF-16 code units, a character outside the Basic Multilingual Plane counting two (no contract of its own; the three lemmas below state its bounds) |
| JsRuntime.Utf16Bounds | src/validations/productSchema.ts:11-12 | a string's `.length` lies between its character count and twice it |
| JsRuntime.BmpLength | src/validations/productSchema.ts:11-12 | a string of Basic Multilingual Plane characters has a `.length` equal to its character count |
| JsRuntime.AstralLength | src/validations/productSchema.ts:11-12 | a string of characters outside the Basic Multilingual Plane has a `.length` of twice its character count |
| Json.Lookup | src/utils/products.ts:58-61 | a member lookup is None exactly when the key is absent, and otherwise returns a member of the object |
| FormDataModel.Get | src/utils/productForm.ts:35-48 | `formData.get`: the value of the first entry with the name, None standing for null (no contract of its own; `GetFindsFirst` states its meaning) |
| FormDataModel.GetAll | src/utils/productForm.ts:61 | `formData.getAll` (no contract of its own; `GetAllCollects` and `GetAllScan` state its meaning) |
| FormDataModel.GetFindsFirst | src/utils/productForm.ts:41-46 | `formData.get` is null exactly when no entry has the key, and otherwise returns the first entry with that key |
| FormDataModel.GetAllCollects | src/utils/productForm.ts:61 | a value is in `formData.getAll`'s result exactly when some entry stores it under the key, and the result has no more values than there are entries |
| FormDataModel.GetAllScan | src/utils/productForm.ts:61 | `getAll` over a prefix one entry longer is the shorter prefix's result followed by that entry's value exactly when the entry has the name; with `getAll` of no entries being empty, this fixes the result as the values of the entries with the name, in entry order |
| FormDataModel.LookupAppend | src/components/admin/ProductForm.tsx:135 | appending entries: `get` keeps an earlier match, and `getAll` concatenates |
| FormDataModel.LookupAbsent | src/utils/productForm.ts:41-46 | a key that has no entry reads as null and as the empty list |
| ProductSchema.CheckString | src/validations/productSchema.ts:11-12 | `z.string().min().max()` passes exactly strings whose `.length`, counted in UTF-16 code units, is in range, and yields the string; undefined is reported as Required |
| ProductSchema.AstralCharactersCountTwice | src/validations/productSchema.ts:11 | a title of two emoji has four code units and meets the minimum of 3, while "ab" is too short |
| ProductSchema.CoerceNumber | src/validations/productSchema.ts:14 | `z.coerce.number` maps null to 0, and undefined or NaN to a failure |
| ProductSchema.CheckNumberMin | src/validations/productSchema.ts:14 | a coerced number with a minimum passes exactly when the coercion succeeds and meets the minimum, and yields the coerced value |
| ProductSchema.CheckCategory | src/validations/productSchema.ts:13 | `z.nativeEnum(Category)` passes exactly the strings that are category values, and yields that category |
| ProductSchema.CheckAvailability | src/validations/productSchema.ts:76 | the availability nativeEnum passes exactly the availability values |
| ProductSchema.CheckReturnPolicy | src/validations/productSchema.ts:77 | the return-policy nativeEnum passes exactly the return-policy values |
| ProductSchema.CheckImages | src/validations/productSchema.ts:79-81 | the images pass exactly when there is at least one and every one is a URL |
| ProductSchema.UrlIssues | src/validations/productSchema.ts:79-81 | there are no URL issues exactly when every image is a URL |
| ProductSchema.DiscountTransform | src/validations/productSchema.ts:15-25 | an empty or unparsable discount becomes undefined; a parsed value outside 0..100 throws the stated message; otherwise the result is the parsed value and lies in 0..100 |
| ProductSchema.OptionalTextTransform | src/validations/productSchema.ts:34-55 | a blank material or color becomes undefined; one whose `.length` is 2..50 UTF-16 code units is kept; a shorter or longer one throws a message naming the field and the bound |
| ProductSchema.PositiveIntTransform | src/validations/productSchema.ts:56-73 | the pack quantity or page count is kept exactly when it is non-empty and parses to an integer of at least 1 |
| ProductSchema.AdmissibleIffEveryRule | src/validations/productSchema.ts:10-86 | the schema's per-field conjunction holds exactly when each of the fourteen checked field rules holds |
| ProductSchema.DimensionIssues | src/validations/productSchema.ts:29-33 | the dimensions report issues exactly when some side is missing, not a number or below 0.01 |
| ProductSchema.IssuesIffBroken | src/validations/productSchema.ts:10-86 | a field has issues exactly when its rule is broken |
| ProductSchema.FieldIssues | src/validations/productSchema.ts:10-86 | the issue list has one pair per field, in shape order, holding the field's name and its issues |
| ProductSchema.ErrorMap | src/validations/productSchema.ts:10-86 | `flatten().fieldErrors` has exactly the fields with issues as keys, and never an empty list |
| ProductSchema.FieldIssuesMatchRules | src/validations/productSchema.ts:10-86 | each reported entry names its field, and is non-empty exactly when that field's rule is broken |
| ProductSchema.NoFailingFieldsIffAdmissible | src/validations/productSchema.ts:10-86 | no field fails exactly when the input is admissible |
| ProductSchema.ErrorKeysAreFailingFields | src/validations/productSchema.ts:10-86 | the error map's keys are exactly the failing fields |
| ProductSchema.Transform | src/validations/productSchema.ts:10-86 | a parsed product keeps the input's strings, enum values and images, cleans material and color, parses pack quantity, page count and discount, coerces the numbers, and satisfies the product invariant |
| ProductSchema.Validate | src/validations/productSchema.ts:10-86 | `safeParse` raises exactly when a transform throws; it accepts exactly the admissible inputs, yielding the transformed product; a rejection's error keys are exactly the failing fields; the discount message is stated |
| ProductSchema.ValidateEdit | src/validations/productSchema.ts:88 | the edit schema is the create schema |
| ProductFormUtils.EntryText | src/utils/productForm.ts:64-68 | a dimension entry is null exactly when absent, and otherwise is its first value |
| ProductFormUtils.NonBlank | src/utils/productForm.ts:69-73 | an optional text field is dropped exactly when it is missing or only whitespace, and is otherwise kept unchanged |
| ProductFormUtils.ExtractFormData | src/utils/productForm.ts:34-82 | the id and the optional fields are kept exactly when present and not blank; tags and images are all values under their keys; dimensions are the three dotted entries; meta is empty |
| ProductFormUtils.RealOr | src/utils/productForm.ts:89 | `parseFloat(x) \|\| fallback`: NaN and 0 give the fallback, and any other float gives itself |
| ProductFormUtils.IntOr | src/utils/productForm.ts:93 | `parseInt(x) \|\| fallback`: NaN and 0 give the fallback, and any other integer gives itself |
| ProductFormUtils.ParseIfPresent | src/utils/productForm.ts:90-92 | a missing or empty optional number stays undefined, and otherwise is parsed |
| ProductFormUtils.EmptyToUndefined | src/utils/productForm.ts:101-102 | `x \|\| undefined`: the empty string and a missing value become undefined |
| ProductFormUtils.ConvertRawDataToInputs | src/utils/productForm.ts:84-116 | the id is dropped; strings pass through; price, weight and the dimensions default to 0, stock to 0 and the minimum order to 1; the optional numbers parse only when present; material and color drop the empty string |
| ProductFormUtils.ExtractedOptionalsSurviveConversion | src/utils/productForm.ts:69-106 | material and color extracted from a form survive conversion unchanged; the discount becomes undefined exactly when it was not extracted, and is otherwise its parsed value |
| ProductFormUtils.CleanHasNoNullish | src/utils/productForm.ts:118-131 | a clean value contains no null or undefined anywhere |
| ProductFormUtils.Cleaned | src/utils/productForm.ts:118-131 | `removeUndefined` never returns null; an array stays an array and never grows; an object becomes undefined or a non-empty object with no more members than it had |
| ProductFormUtils.CleanedItems | src/utils/productForm.ts:120-121 | `map(removeUndefined).filter(...)` never lengthens the array |
| ProductFormUtils.CleanedMembers | src/utils/productForm.ts:122-128 | the cleaned object never has more members than the input |
| ProductFormUtils.CleanedIsClean | src/utils/productForm.ts:118-131 | `removeUndefined` returns undefined or a clean value, and so never leaves a null or undefined inside |
| ProductFormUtils.CleanedItemsAreClean | src/utils/productForm.ts:120-121 | every element kept from an array is clean |
| ProductFormUtils.CleanedMembersAreClean | src/utils/productForm.ts:122-128 | every member kept from an object is clean |
| ProductFormUtils.CleanIsFixpoint | src/utils/productForm.ts:118-131 | cleaning a clean value changes nothing |
| ProductFormUtils.CleanItemsFixpoint | src/utils/productForm.ts:120-121 | cleaning an array of clean values changes nothing |
| ProductFormUtils.CleanMembersFixpoint | src/utils/productForm.ts:122-128 | cleaning members with clean values changes nothing |
| ProductFormUtils.CleanedIdempotent | src/utils/productForm.ts:118-131 | `removeUndefined(removeUndefined(v)) == removeUndefined(v)` |
| ProductFormUtils.CleanedShape | src/utils/productForm.ts:118-131 | primitives are returned as they are; arrays stay arrays, and `[]` stays `[]`; an object becomes undefined exactly when every member cleans to undefined |
| ProductFormUtils.CleanedMembersEmpty | src/utils/productForm.ts:122-128 | the cleaned object is empty exactly when every member cleans away |
| ProductFormUtils.CleanedItemsAppend | src/utils/productForm.ts:120-121 | cleaning an array distributes over concatenation |
| ProductFormUtils.CleanedMembersFromInput | src/utils/productForm.ts:122-128 | every kept member comes from an input member with the same key, holding its cleaned value, and distinct keys stay distinct |
| ProductFormUtils.RemoveUndefined | src/utils/productForm.ts:118-131 | the recursive method computes `Cleaned(v)` |
| ProductFormUtils.RemoveUndefinedItems | src/utils/productForm.ts:120-121 | the array loop computes the cleaned elements in order, dropping undefined |
| ProductFormUtils.RemoveUndefinedMembers | src/utils/productForm.ts:122-128 | the `for … in` loop computes the cleaned members in order, dropping undefined |
| FormSubmission.InputOf | src/components/admin/ProductForm.tsx:73-123 | a key that `inputs` lacks reads as undefined |
| FormSubmission.SideText | src/components/admin/ProductForm.tsx:136-149 | a missing dimension side is written as "0", and any other side as `String(side)` |
| FormSubmission.ListEntries | src/components/admin/ProductForm.tsx:150-153 | an array field is appended once per element, under its key, as `String(element)` |
| FormSubmission.ListEntriesReadBack | src/components/admin/ProductForm.tsx:150-153 | `getAll` reads an appended array back as the element strings; `get` reads back the first one; an empty array writes no entry |
| FormSubmission.EmitEntry | src/components/admin/ProductForm.tsx:136-169 | one `[key, value]` pair writes three entries for a dimensions object, one per item for an array, and at most one otherwise: exactly one for a field `ProductForm.tsx` does not treat as optional, and none for a nullish value under the new page's rule |
| FormSubmission.Emit | src/components/admin/ProductForm.tsx:135 | each pair's entries, in pair order (no contract of its own; `EmitAppend`, `NoEmitter` and `SingleEmitter` state what it holds, and `AppendEntries` is proved against it) |
| FormSubmission.DimensionsEntries | src/components/admin/ProductForm.tsx:136-149 | a dimensions object writes exactly three dotted entries, width, height and depth, with "0" for nullish sides |
| FormSubmission.EmitEntryKeys | src/components/admin/ProductForm.tsx:135-169 | one entry writes only under its own key, or under the dimension names |
| FormSubmission.EmitAppend | src/components/admin/ProductForm.tsx:135 | serialising concatenated entries concatenates the FormData |
| FormSubmission.NoEmitter | src/components/admin/ProductForm.tsx:135 | a name no entry writes is absent from the FormData |
| FormSubmission.SingleEmitter | src/components/admin/ProductForm.tsx:135 | when only one entry writes a name, reading that name sees exactly what that entry wrote |
| FormSubmission.OnlyOwnKey | src/components/admin/ProductForm.tsx:135 | with distinct keys, no other entry writes an entry's key |
| FormSubmission.OnlyDimensions | src/components/admin/ProductForm.tsx:136-149 | with distinct keys, only the dimensions entry writes the dotted names |
| FormSubmission.AppendItems | src/components/admin/ProductForm.tsx:150-153 | the `forEach` over an array appends exactly the list entries |
| FormSubmission.AppendEntry | src/components/admin/ProductForm.tsx:136-169 | one loop iteration appends exactly that entry's FormData |
| FormSubmission.EmitStep | src/components/admin/ProductForm.tsx:135 | serialising from index i is entry i followed by the rest |
| FormSubmission.AppendEntries | src/components/admin/ProductForm.tsx:135-169 | the `Object.entries(data).forEach` loop appends exactly the serialisation of all entries, in order |
| AdminProductForm.Or | src/components/admin/ProductForm.tsx:73-123 | `a \|\| b` picks `a` exactly when `a` is truthy |
| AdminProductForm.OrScalar | src/components/admin/ProductForm.tsx:73-123 | `a \|\| b` on scalars picks `a` exactly when `a` is truthy |
| AdminProductForm.Strs | src/components/admin/ProductForm.tsx:122 | stored strings become string values, element by element |
| AdminProductForm.Defaults | src/components/admin/ProductForm.tsx:73-123 | the default values are the form's nineteen keys in order, each holding its default |
| AdminProductForm.DefaultAt | src/components/admin/ProductForm.tsx:73-123 | one field's `product?.[key] \|\| state?.inputs?.[key] \|\| fallback`, per side for dimensions (no contract of its own; `ZeroStockFallsThrough`, `CreateDefaultsFromInputs` and `EditDefaults` state its values) |
| AdminProductForm.FormKeysIndexed | src/components/admin/ProductForm.tsx:73-123 | each form key has its own index, and none is "id" or a dotted dimension name |
| AdminProductForm.FormKeysWellKeyed | src/components/admin/ProductForm.tsx:73-123 | the default values have distinct keys, none of them "id" or dotted |
| AdminProductForm.OnSubmit | src/components/admin/ProductForm.tsx:128-176 | the submit handler builds exactly `Submission`: the id first when editing, then the serialised entries |
| AdminProductForm.Submission | src/components/admin/ProductForm.tsx:128-176 | the id entry when editing, then the serialised pairs (no contract of its own; `SubmittedId` and `SubmittedValue` state what it holds, and `OnSubmit` is proved against it) |
| AdminProductForm.SubmittedValue | src/components/admin/ProductForm.tsx:131-169 | a name that only one entry writes reads back as that entry wrote it, whatever the mode |
| AdminProductForm.SubmittedId | src/components/admin/ProductForm.tsx:131-133 | an edit with a non-empty id writes it as the first entry, and otherwise "id" is absent; the server then reads the id exactly when it is not blank |
| AdminProductForm.ReadBackDimensions | src/components/admin/ProductForm.tsx:136-149 | the server reads back the three sides as sent, with "0" for missing sides |
| AdminProductForm.ReadBackSide | src/components/admin/ProductForm.tsx:136-149 | each dotted dimension name reads back as its side's text |
| AdminProductForm.ReadBackList | src/components/admin/ProductForm.tsx:150-153 | an array field reads back through `getAll` as its element strings |
| AdminProductForm.ReadBackPlain | src/components/admin/ProductForm.tsx:155-169 | an optional field is sent only when not nullish and not empty; a required one is always sent, with "" for nullish |
| AdminProductForm.ReadBackText | src/components/admin/ProductForm.tsx:167-169 | every required text field the server extracts is what the form sent |
| AdminProductForm.ReadBackOptional | src/components/admin/ProductForm.tsx:155-166 | every optional field the server extracts is what the form sent, or undefined when nothing was sent |
| AdminProductForm.SubmissionReadBack | src/components/admin/ProductForm.tsx:135-153 | images, tags and dimensions survive the trip from form to `extractFormData` |
| AdminProductForm.SubmissionMissingField | src/components/admin/ProductForm.tsx:135 | a field the form data lacks is absent from the submission |
| AdminProductForm.ZeroStockFallsThrough | src/components/admin/ProductForm.tsx:82 | a stored stock of 0 is falsy, so the default falls through to `inputs.stock` and then to undefined |
| AdminProductForm.CreateDefaultsFromInputs | src/components/admin/ProductForm.tsx:73-123 | without a product, each default is the previous input when that is truthy, and otherwise the field's fallback |
| AdminProductForm.EditDefaults | src/components/admin/ProductForm.tsx:74-122 | when editing, title, stock, dimensions, material and images default to the stored product's values |
| AdminProductForm.EditReadsId | src/components/admin/ProductForm.tsx:131-133 | an edit submission of a product with a non-blank id is read back with that id |
| AdminProductForm.EditReadsTitleAndStock | src/components/admin/ProductForm.tsx:74-82 | an unchanged edit reads back the stored title, and the stock text or "" for 0 |
| AdminProductForm.EditReadsMaterial | src/components/admin/ProductForm.tsx:99 | an unchanged edit reads back the stored material when it is not blank |
| AdminProductForm.EditReadsWidth | src/components/admin/ProductForm.tsx:85-98 | an unchanged edit reads back the stored width, or "0" |
| AdminProductForm.EditReadsImages | src/components/admin/ProductForm.tsx:122 | an unchanged edit reads back the stored images |
| AdminProductForm.UnchangedEditResubmits | src/components/admin/ProductForm.tsx:73-176 | submitting the edit form's defaults unchanged gives the server the product's id, title, stock, width, material and images |
| NewProductPage.Defaults | src/app/admin/products/new/page.tsx:56-64 | the page's defaults are its seven keys, in order |
| NewProductPage.KeepInput | src/app/admin/products/new/page.tsx:56-63 | `state?.inputs?.[key] ?? undefined` never yields null, and keeps any input that is not nullish, falsy or not |
| NewProductPage.DefaultsKeepInputs | src/app/admin/products/new/page.tsx:56-64 | each default is the previous input unless that is nullish, in which case it is undefined, or for tags the nullish input itself |
| NewProductPage.OnSubmit | src/app/admin/products/new/page.tsx:69-98 | the submit handler builds exactly the page's serialisation of the entries |
| NewProductPage.Submission | src/app/admin/products/new/page.tsx:69-98 | the page's serialisation of the pairs (no contract of its own; `NeverSendsId` and the `ReadBack` lemmas state what it holds, and `OnSubmit` is proved against it) |
| NewProductPage.NeverSendsId | src/app/admin/products/new/page.tsx:69-98 | the new-product page never sends an id, so the server extracts none |
| NewProductPage.ReadBackScalar | src/app/admin/products/new/page.tsx:90-92 | a scalar field is sent as `String(value)` unless it is nullish, in which case nothing is sent |
| NewProductPage.ReadBackList | src/app/admin/products/new/page.tsx:86-89 | an array field reads back as its element strings |
| NewProductPage.ReadBackDimensions | src/app/admin/products/new/page.tsx:72-85 | each dotted dimension name reads back as its side's text, "0" when missing |
| NewProductPage.EmptyMaterialIsSent | src/app/admin/products/new/page.tsx:90-92 | an empty material is still sent as "", and the server then drops it |
| NewProductPage.CategoryOptions | src/app/admin/products/new/page.tsx:139-142 | the select offers one option per category, carrying the key name as both value and label |
| NewProductPage.CategoryOptionsRejected | src/app/admin/products/new/page.tsx:139-142 | every category option the page offers fails the schema's category check |
| NewProductPage.CategoryValueOptions | src/app/admin/products/new/page.tsx:139-142 | the corrected select offers one option per category, carrying the category value |
| NewProductPage.CategoryValueOptionsAccepted | src/app/admin/products/new/page.tsx:139-142 | every corrected option passes the category check, and every category is offered |
| NewProductAction.CheckTag | src/app/actions/admin/products.ts:20 | a tag passes exactly when it is a Tag value |
| NewProductAction.CheckTagList | src/app/actions/admin/products.ts:20 | a tag array passes exactly when every element is a Tag, and yields them in order |
| NewProductAction.CheckTags | src/app/actions/admin/products.ts:20 | optional tags pass when absent or when every tag is valid, keeping their number |
| NewProductAction.CheckDimensions | src/app/actions/admin/products.ts:23-27 | the dimensions pass exactly when present with three coercible sides of at least 0.01, and missing dimensions are Required |
| NewProductAction.CheckOptionalString | src/app/actions/admin/products.ts:35-36 | an optional string passes exactly when undefined or a string |
| NewProductAction.CheckMeta | src/app/actions/admin/products.ts:33-38 | the optional meta object passes exactly when absent or with optional string members |
| NewProductAction.AdmissibleIffEveryRule | src/app/actions/admin/products.ts:13-39 | the action schema's conjunction holds exactly when each of its sixteen field rules holds |
| NewProductAction.IssuesIffBroken | src/app/actions/admin/products.ts:13-39 | a field has issues exactly when its rule is broken |
| NewProductAction.FieldIssues | src/app/actions/admin/products.ts:13-39 | one pair per field, in shape order, holding its name and issues |
| NewProductAction.ErrorKeysAreBrokenRules | src/app/actions/admin/products.ts:72 | the field errors' keys are exactly the names of the broken rules |
| NewProductAction.Build | src/app/actions/admin/products.ts:13-39 | parsed data keeps strings and enum values, coerces the numbers and keeps the tags, satisfying the product invariant |
| NewProductAction.SafeParse | src/app/actions/admin/products.ts:55 | succeeds exactly on admissible candidates, with the built data; a failure lists only non-empty issue lists |
| NewProductAction.RejectionNamesAField | src/app/actions/admin/products.ts:55-72 | a failed parse always names at least one field |
| NewProductAction.DiscountRequired | src/app/actions/admin/products.ts:18 | an undefined or zero discount fails, with NaN or the "Discount must be positive" message |
| NewProductAction.SameLengthBounds | src/app/actions/admin/products.ts:14-29 | the action's title, description, brand, warranty and shipping rules agree with the product schema's rules |
| NewProductAction.FieldText | src/app/actions/admin/products.ts:45-53 | a field read with `formData.get` is null or a string |
| NewProductAction.StrItems | src/app/actions/admin/products.ts:52 | the `getAll` tags become string values, element by element |
| NewProductAction.EchoPrice | src/app/actions/admin/products.ts:65 | the echoed price is undefined for a falsy price, and otherwise `parseFloat(price)` |
| NewProductAction.Respond | src/app/actions/admin/products.ts:57-118 | a failed parse returns the "Please correct the form input" state with the echoed inputs and the field errors; a stored success returns the success message; a failed store returns "Failed to add product"; success is reported exactly when parsing succeeded and the store stored |
| NewProductAction.CandidateOf | src/app/actions/admin/products.ts:45-55 | the object handed to `safeParse`: the seven fields read, every other field missing (no contract of its own; `UnreadRuleBroken` and `CandidateAlwaysRejected` state what follows) |
| NewProductAction.EchoOf | src/app/actions/admin/products.ts:62-71 | the inputs echoed back, the raw fields with the price parsed (no contract of its own; `EchoPrice` and `EchoedPrice` state the price) |
| NewProductAction.AddNewProduct | src/app/actions/admin/products.ts:41-120 | a success means the store wrote, and an answer carrying errors is never a success and carries the echoed inputs |
| NewProductAction.ReportedIffBroken | src/app/actions/admin/products.ts:55-72 | a broken rule makes the parse fail, and on failure a field is reported exactly when its rule is broken |
| NewProductAction.CandidateAlwaysRejected | src/app/actions/admin/products.ts:45-55 | the candidate built from the seven fields the action reads always fails, reporting every field it never reads |
| NewProductAction.UnreadReported | src/app/actions/admin/products.ts:45-55 | each required field the action never reads is reported |
| NewProductAction.UnreadRuleBroken | src/app/actions/admin/products.ts:45-55 | each required field the action never reads breaks its rule |
| NewProductAction.ActionAlwaysRejects | src/app/actions/admin/products.ts:41-73 | whatever the form holds, the action returns the correction message with the echoed inputs and errors for every unread field |
| NewProductAction.EchoedPrice | src/app/actions/admin/products.ts:65 | the echoed price is undefined for a missing or empty entry, and otherwise is the parsed number or NaN |
| NewProductAction.ValidBrandStillReported | src/app/actions/admin/products.ts:45-53 | a form carrying any valid brand (2 to 50 UTF-16 code units) still gets "brand" reported as exactly [Required] |
| NewProductAction.ReportedIssues | src/app/actions/admin/products.ts:72 | a broken field's reported errors are exactly its issues |
| NewProductAction.ErrorMapValue | src/app/actions/admin/products.ts:72 | a field with issues and a unique name is in the error map, holding exactly its issues |
| NewProductAction.CorrectedReportsOnlyBrokenFields | src/app/actions/admin/products.ts:41-73 | the corrected action, which reads every field, reports errors exactly when the candidate is not admissible, and reports exactly the broken fields |
| NewProductAction.CorrectedAcceptsValidBrand | src/app/actions/admin/products.ts:21 | for every form whose brand is 2 to 50 UTF-16 code units, the corrected action does not report "brand" |
| NewProductAction.FieldNumbered | src/app/actions/admin/products.ts:13-39 | field names map back to their rule index |
| NewProductAction.FieldNamesDistinct | src/app/actions/admin/products.ts:13-39 | the action schema's field names are distinct |
| ProductQueries.Converted | src/utils/products.ts:14-35 | values other than timestamps, arrays and objects are returned unchanged; arrays and objects keep their length |
| ProductQueries.ConvertedItemsPointwise | src/utils/products.ts:23-25 | `data.map(convertTimestamps)` converts each element in place |
| ProductQueries.ConvertedMembersPointwise | src/utils/products.ts:27-33 | the object loop keeps the keys in order and converts each value |
| ProductQueries.ConvertedHasNoTimestamps | src/utils/products.ts:14-35 | the result contains no timestamp anywhere |
| ProductQueries.ConvertedFixpoint | src/utils/products.ts:14-35 | data without timestamps is returned unchanged |
| ProductQueries.ConvertedIdempotent | src/utils/products.ts:14-35 | converting twice is converting once |
| ProductQueries.ConvertTimestamps | src/utils/products.ts:14-35 | the recursive method computes `Converted` |
| ProductQueries.ConvertItems | src/utils/products.ts:23-25 | the array loop computes the converted elements |
| ProductQueries.ConvertMembers | src/utils/products.ts:27-33 | the `for … of Object.entries` loop computes the converted members |
| ProductQueries.Assign | src/utils/products.ts:58-61 | assigning an existing key keeps the keys, and a new key is appended, in insertion order (integer-like keys: see Left out) |
| ProductQueries.LookupAssign | src/utils/products.ts:58-61 | after assigning, the key reads as the new value and other keys as before |
| ProductQueries.Spread | src/utils/products.ts:58-61 | `{...obj, ...source}` never drops a key of `obj` and adds at most one key per source entry |
| ProductQueries.SpreadKeepsFirst | src/utils/products.ts:58-61 | a spread keeps the target's first key first in insertion order (integer-like keys: see Left out) |
| ProductQueries.Assemble | src/utils/products.ts:58-61 | an assembled product has the "id" field and at most one more field per stored field |
| ProductQueries.LookupSpread | src/utils/products.ts:58-61 | after a spread, keys of the spread object read from it, and other keys as before |
| ProductQueries.AssembledFields | src/utils/products.ts:58-61 | an assembled product's "id" is the document id unless the data holds an "id", which then wins; every other field is the converted stored field; "id" is the first key in insertion order (integer-like keys: see Left out) |
| ProductQueries.AssembleAll | src/utils/products.ts:53-64 | one product per document, in order |
| ProductQueries.CollectProducts | src/utils/products.ts:102-111 | the `forEach` loop pushes exactly the assembled products, in order |
| ProductQueries.Where | src/utils/products.ts:47 | the category query keeps exactly the documents of that category |
| ProductQueries.WhereAppend | src/utils/products.ts:47 | filtering distributes over concatenation, and so keeps store order |
| ProductQueries.GetProductsByCategory | src/utils/products.ts:39-70 | a store error gives `[]`, and otherwise the result is the assembled products of the category |
| ProductQueries.GetAllProducts | src/utils/products.ts:97-118 | a store error gives `[]`, and otherwise the result is every document assembled |
| ProductQueries.FindDoc | src/utils/products.ts:76-79 | finds a document with the id, and returns None exactly when none exists |
| ProductQueries.GetProductById | src/utils/products.ts:73-94 | null on a store error or a missing document, and otherwise the assembled document with that id |
| ProductQueries.ProductByIdKeepsId | src/utils/products.ts:83-86 | a product fetched by id carries that id when the stored data has no "id" of its own |
| ProductQueries.ProductsByCategoryMatch | src/utils/products.ts:47-61 | every product returned for a category has that category |
| ShoppingCart.AddToLine | src/context/CartContext.tsx:54-58 | the line with the id gets its quantity raised by the amount, and every other line is unchanged |
| ShoppingCart.Added | src/context/CartContext.tsx:52-60 | an existing id's line is raised by the quantity, and otherwise a new line is appended |
| ShoppingCart.Increased | src/context/CartContext.tsx:63-69 | increasing is adding one to the line with the id |
| ShoppingCart.Decreased | src/context/CartContext.tsx:71-77 | the line with the id loses one only when its quantity is above 1, and every other line is unchanged |
| ShoppingCart.RemovedLines | src/context/CartContext.tsx:79-81 | the lines kept are exactly those whose id differs |
| ShoppingCart.Removed | src/context/CartContext.tsx:80 | the filter never lengthens the cart |
| ShoppingCart.TotalItems | src/context/CartContext.tsx:83 | `reduce` summing the quantities (no contract of its own; `TotalsAppend`, `TotalsNonNegative` and the per-operation totals lemmas state its behaviour) |
| ShoppingCart.TotalPrice | src/context/CartContext.tsx:85-86 | `reduce` summing price times quantity (no contract of its own; the same lemmas state its behaviour) |
| ShoppingCart.AddExisting | src/context/CartContext.tsx:53-58 | adding an id already in the cart changes only that line's quantity |
| ShoppingCart.AddNew | src/context/CartContext.tsx:59 | adding a new id appends one line built from the item and the quantity |
| ShoppingCart.AddIgnoresStock | src/context/CartContext.tsx:42-61 | adding does not check stock, so a line can exceed it |
| ShoppingCart.AddedKeepsDistinct | src/context/CartContext.tsx:52-60 | adding keeps the line ids distinct |
| ShoppingCart.DecreasedKeepsDistinct | src/context/CartContext.tsx:63-77 | increasing and decreasing keep the line ids distinct |
| ShoppingCart.RemovedKeepsDistinct | src/context/CartContext.tsx:79-81 | removing keeps the line ids distinct |
| ShoppingCart.UnknownIdNoOp | src/context/CartContext.tsx:63-81 | increase, decrease and remove leave the cart unchanged for an unknown id |
| ShoppingCart.RemovedAbsent | src/context/CartContext.tsx:80 | removing an id that no line has changes nothing |
| ShoppingCart.DecreaseFloor | src/context/CartContext.tsx:71-77 | decreasing keeps each line and never takes a quantity of at least 1 below 1 |
| ShoppingCart.RemovedAppend | src/context/CartContext.tsx:80 | the filter distributes over concatenation |
| ShoppingCart.TotalsAppend | src/context/CartContext.tsx:83-86 | both totals are additive over concatenation |
| ShoppingCart.TotalsOneLine | src/context/CartContext.tsx:83-86 | changing one line's quantity by a delta changes the item total by the delta, and the price total by the price times the delta |
| ShoppingCart.TotalsNonNegative | src/context/CartContext.tsx:83-86 | with no negative quantity the item total is not negative, and with no negative price either the price total is not negative |
| ShoppingCart.AddedTotals | src/context/CartContext.tsx:42-61 | adding raises the item total by the quantity, and the price total by the price of the line it lands on times the quantity |
| ShoppingCart.IncreasedTotals | src/context/CartContext.tsx:63-69 | increasing raises the item total by 1, and the price total by the line's price |
| ShoppingCart.DecreasedTotals | src/context/CartContext.tsx:71-77 | decreasing a line with quantity above 1 lowers the item total by 1 and the price total by the line's price; a line at 1 or below leaves the cart, and so the totals, unchanged |
| ShoppingCart.RemovedTotals | src/context/CartContext.tsx:79-81 | removing a line lowers the totals by that line's quantity and amount |
| ShoppingCart.RemovedSplit | src/context/CartContext.tsx:80 | with distinct ids, removing a line's id cuts exactly that line out |
| ShoppingCart.CartProvider.constructor | src/context/CartContext.tsx:40 | the cart starts empty |
| ShoppingCart.CartProvider.AddToCart | src/context/CartContext.tsx:42-61 | the new cart is `Added(old cart)`, the ids stay distinct, and the item total rises by the quantity |
| ShoppingCart.CartProvider.IncreaseQuantity | src/context/CartContext.tsx:63-69 | the new cart is `Increased(old cart)` |
| ShoppingCart.CartProvider.DecreaseQuantity | src/context/CartContext.tsx:71-77 | the new cart is `Decreased(old cart)`, with the same number of lines |
| ShoppingCart.CartProvider.RemoveFromCart | src/context/CartContext.tsx:79-81 | the new cart is `Removed(old cart)`, and no line has the id any more |
| ShoppingCart.CartProvider.GetTotalItems | src/context/CartContext.tsx:83 | the sum of the quantities |
| ShoppingCart.CartProvider.GetTotalPrice | src/context/CartContext.tsx:85-86 | the sum of price times quantity |
| Formatters.FormatPrice | src/utils/formatters.ts:3-8 | a number is printed as "$" followed by `toFixed(2)` |
| Formatters.PriceShape | src/utils/formatters.ts:3-8 | the result is "N/A" exactly for non-numbers, and otherwise starts with "$" |
| Formatters.FormatPercentage | src/utils/formatters.ts:10-15 | always ends in "%"; non-numbers give "0%"; numbers give their text followed by "%" |
| Formatters.FormatNumber | src/utils/formatters.ts:17-22 | non-numbers give "N/A", and numbers give their text |
| Formatters.PercentageOfNumber | src/utils/formatters.ts:10-22 | for a number, `formatPercentage` is `formatNumber` followed by "%"; for anything else they give "0%" and "N/A" |
| Formatters.SideText | src/utils/formatters.ts:26-28 | a missing, undefined or null side reads "N/A" |
| Formatters.FormatDimensions | src/utils/formatters.ts:24-31 | without a defined width the result is "N/A", and otherwise the W/H/D pattern of the three sides |
| Formatters.PatternShape | src/utils/formatters.ts:26-28 | the pattern starts with "W: " and ends with "cm" |
| Formatters.DimensionsShape | src/utils/formatters.ts:24-31 | the output starts with "W: " exactly when the width is defined, and then ends with "cm" |
| Formatters.FormatText | src/utils/formatters.ts:33-38 | null, undefined and "" give "N/A", and anything else gives `toString()` |
| Formatters.TextShape | src/utils/formatters.ts:33-38 | a non-empty string is returned as is, and "N/A" comes out only for "" or "N/A" itself |
| Formatters.DiscountedPrice | src/utils/formatters.ts:40-48 | a missing or non-positive discount leaves the price unchanged |
| Formatters.DiscountBounds | src/utils/formatters.ts:40-48 | a discount in (0, 100] keeps the price between 0 and the original, and 100 makes it 0 |
| Formatters.DiscountMonotone | src/utils/formatters.ts:40-48 | a larger discount never gives a higher price |
| Formatters.DisplayTitle | src/utils/formatters.ts:50-55 | the title is as long as the brand, ". " and the title together |
| Formatters.DisplayTitleParts | src/utils/formatters.ts:50-55 | the title is the brand, then ". ", then the product title |
| CategoryCard.CategoryImage | src/components/categories/CategoryCard.tsx:8-18 | a string that is no category value falls back to the pens image (the caller passes only category values) |
| CategoryCard.ImagesOfCategories | src/components/categories/CategoryCard.tsx:9-15 | each category gets its own mapped image, and no two categories share one |
| CategoryCard.Lower | src/components/categories/CategoryCard.tsx:22 | `toLowerCase` maps each character, keeping the length |
| CategoryCard.SkipSpaces | src/components/categories/CategoryCard.tsx:23 | skipping a whitespace run leaves a suffix that does not start with whitespace |
| CategoryCard.SlashesToDashes | src/components/categories/CategoryCard.tsx:24 | every "/" becomes "-", and every other character is kept |
| CategoryCard.CollapseSpaces | src/components/categories/CategoryCard.tsx:23 | `replace(/\s+/g, "-")` never lengthens the text, and gives the empty text only for the empty text |
| CategoryCard.Slug | src/components/categories/CategoryCard.tsx:21-24 | the slug is no longer than the category value, and is empty only for an empty value |
| CategoryCard.Href | src/components/categories/CategoryCard.tsx:28 | the link starts with "/categories/", and has a slug after it exactly when the value is not empty |
| CategoryCard.CollapsedHasNoSpace | src/components/categories/CategoryCard.tsx:23 | after `replace(/\s+/g, "-")` no whitespace is left, and no new character except "-" appears |
| CategoryCard.SlugIsClean | src/components/categories/CategoryCard.tsx:21-24 | a slug contains no whitespace and no "/" |
| CategoryCard.CategorySlugs | src/components/categories/CategoryCard.tsx:21-28 | the five slugs are "pens", "notebooks", "staplers-staples", "sticky-notes" and "desk-organizers", and distinct categories link to distinct pages |
| CategoryCard.NoSpaceCollapse | src/components/categories/CategoryCard.tsx:23 | a text without whitespace is left unchanged by the whitespace replacement |
| CategoryCard.CollapseAfterWord | src/components/categories/CategoryCard.tsx:23 | the whitespace replacement leaves a leading run of non-whitespace as it is |

## Left out

- Firestore I/O. `getDocs`, `getDoc`, `addDoc` and `setDoc` are not modelled as calls. The store's answer is a `Read` value (loaded documents, or an error that the code catches), and the action's write is a boolean "stored" parameter. For the query helpers, the filter `where("category", "==", category)` is modelled over the loaded documents.
- After a successful write, the action builds a QR code and merges it into the document with `setDoc(..., { merge: true })`. This is not modelled: it involves a network library and has no effect on the returned state, except through the catch that `stored` covers.
- `console.log` and `console.error` lines: these are output only.
- React, `useState`, `react-hook-form`, JSX and `register` rules. Only what the handlers compute is modelled: the default values, the FormData built by `onSubmit`, the select options and the link.
- The image upload `fetch` in the admin form: network I/O.
- The display components other than the CategoryCard's link and image: they contain no logic beyond rendering.
- JavaScript number parsing and printing. `Number()`, `parseFloat`, `parseInt`, `String(number)`, `toFixed(2)` and `toISOString` are abstract functions of an `Env` parameter, and no property depends on how they format.
- `z.string().url()`: abstracted as `Env.isUrl`.
- The `Tag` enum is imported from `src/types/product.ts` but not declared in it. Membership in it is `Env.isTag`.
- IEEE doubles are modelled as `real`. Rounding in `price * (1 - d / 100)` and in the cart's price total is not modelled.
- Cart quantities and stock are unbounded `int`s rather than doubles.
- `toLowerCase` is modelled for ASCII letters only. Other characters are left unchanged.
- CategoryCard.CategoryImage: models `imageMap[category]` for the category values and for other own string keys. Keys inherited from `Object.prototype` ("constructor", "toString", …) would find a function there; no caller passes one, since the home page maps over `Object.values(Category)` (src/app/page.tsx:6).
- ShoppingCart.Removed: its `ensures` states only that the cart does not grow. Which lines are kept is stated by `RemovedLines`, and the exact result by `RemovedSplit`.
- NewProductAction.SafeParse: its `ensures` does not state the error map's key set. That is stated per field by `ReportedIffBroken` and `ReportedIssues`.
- ProductQueries.AssembledFields, ProductQueries.ProductByIdKeepsId and ProductFormUtils.CleanedMembersFromInput: these assume an object's keys are distinct, as they always are for objects in JavaScript. The member-sequence model does not enforce it.
- ProductQueries.Converted: for arrays and objects, its `ensures` states only the shape. The pointwise content is stated by `ConvertedItemsPointwise` and `ConvertedMembersPointwise`.
- `removeUndefined` over objects builds the result by appending members in input order, which is JavaScript's insertion order. Object prototypes, getters and non-plain objects are not modelled.
- ProductQueries.Assign: objects are member sequences in insertion order. JavaScript enumerates integer-like keys ("0", "2024") first, in ascending numeric order, and only then the string keys in insertion order. So for such a new key, "goes last" does not describe JavaScript's key order. Lookups (`LookupAssign`) do not depend on order.
- ProductQueries.SpreadKeepsFirst: "the first key stays first" holds for insertion order only. A source with an integer-like key puts that key before "id" in JavaScript's enumeration order.
- ProductQueries.AssembledFields: "id is the first key" holds in insertion order only, for the same reason. A stored field named "2024" would be enumerated before "id". The statements about field values do not depend on order.
- The same insertion-order reading applies to `removeUndefined` and `convertTimestamps` on objects with integer-like keys (ProductFormUtils.CleanedMembers, ProductQueries.ConvertedMembersPointwise).
- `convertTimestamps` treats only Firestore `Timestamp` values as special. Other class instances (`Date` and so on) are plain objects in the JSON model.

## Findings

| source | as written | input that shows it | evidently intended | confidence | as-written member | corrected member |
|---|---|---|---|---|---|---|
| src/app/admin/products/new/page.tsx:139-142 | the category select offers `allCategories`, the key names such as "PENS", as option values | choosing any category, e.g. "PENS", which `z.nativeEnum(Category)` rejects because the enum's values are "Pens", … | offer the category values (`Object.values(Category)`) | not executed | NewProductPage.CategoryOptionsRejected | NewProductPage.CategoryValueOptionsAccepted |
| src/app/actions/admin/products.ts:45-55 | `rawData` reads only title, description, category, price, availabilityStatus, returnPolicy and tags, yet the schema requires discountPercentage, stock, brand, weight, dimensions, warranty, shipping and minimumOrderQuantity | any form, e.g. one with brand "Acme" and every other field valid: the action still answers "Please correct the form input", with brand reported as Required | read every field the schema checks from the form data | not executed | NewProductAction.ActionAlwaysRejects | NewProductAction.CorrectedReportsOnlyBrokenFields |
