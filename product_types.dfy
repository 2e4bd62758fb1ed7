/**
 * The product record vocabulary (src/types/product.ts): the three string
 * enums with their display values and key names, the `all*` key lists, and
 * the `Product`, `Dimensions` and `Meta` records.
 */
module ProductTypes {
  import opened Wrappers

  /** `enum Category`, in declaration order. */
  datatype Category = Pens | Notebooks | StaplersStaples | StickyNotes | DeskOrganizers {
    /** The enum member's string value. */
    function Value(): string {
      match this
      case Pens => "Pens"
      case Notebooks => "Notebooks"
      case StaplersStaples => "Staplers/Staples"
      case StickyNotes => "Sticky Notes"
      case DeskOrganizers => "Desk Organizers"
    }
    /** The enum member's key name, as `Object.keys` lists it. */
    function Key(): string {
      match this
      case Pens => "PENS"
      case Notebooks => "NOTEBOOKS"
      case StaplersStaples => "STAPLERS_STAPLES"
      case StickyNotes => "STICKY_NOTES"
      case DeskOrganizers => "DESK_ORGANIZERS"
    }
  }

  /** `enum AvailabilityStatus`. */
  datatype AvailabilityStatus = InStock | OutOfStock {
    function Value(): string {
      match this
      case InStock => "In Stock"
      case OutOfStock => "Out of Stock"
    }
    function Key(): string {
      match this
      case InStock => "IN_STOCK"
      case OutOfStock => "OUT_OF_STOCK"
    }
  }

  /** `enum ReturnPolicy`, in declaration order. */
  datatype ReturnPolicy = NoReturn | Days14 | Days7 | Days30 | Days60 | Days90 {
    function Value(): string {
      match this
      case NoReturn => "No return policy"
      case Days14 => "14 days return policy"
      case Days7 => "7 days return policy"
      case Days30 => "30 days return policy"
      case Days60 => "60 days return policy"
      case Days90 => "90 days return policy"
    }
    function Key(): string {
      match this
      case NoReturn => "NO_RETURN"
      case Days14 => "DAYS_14"
      case Days7 => "DAYS_7"
      case Days30 => "DAYS_30"
      case Days60 => "DAYS_60"
      case Days90 => "DAYS_90"
    }
  }

  /** The members of each enum in declaration order (the order `Object.keys` and `Object.values` follow). */
  const CategoryOrder: seq<Category> := [Pens, Notebooks, StaplersStaples, StickyNotes, DeskOrganizers]
  const AvailabilityOrder: seq<AvailabilityStatus> := [InStock, OutOfStock]
  const ReturnPolicyOrder: seq<ReturnPolicy> := [NoReturn, Days14, Days7, Days30, Days60, Days90]

  /** `allCategories = Object.keys(Category)`. */
  function AllCategories(): (r: seq<string>)
    ensures |r| == |CategoryOrder| && forall i :: 0 <= i < |r| ==> r[i] == CategoryOrder[i].Key()
  {
    ["PENS", "NOTEBOOKS", "STAPLERS_STAPLES", "STICKY_NOTES", "DESK_ORGANIZERS"]
  }

  /** `allAvailabilityStatuses = Object.keys(AvailabilityStatus)`. */
  function AllAvailabilityStatuses(): (r: seq<string>)
    ensures |r| == |AvailabilityOrder| && forall i :: 0 <= i < |r| ==> r[i] == AvailabilityOrder[i].Key()
  {
    ["IN_STOCK", "OUT_OF_STOCK"]
  }

  /** `allReturnPolicies = Object.keys(ReturnPolicy)`. */
  function AllReturnPolicies(): (r: seq<string>)
    ensures |r| == |ReturnPolicyOrder| && forall i :: 0 <= i < |r| ==> r[i] == ReturnPolicyOrder[i].Key()
  {
    ["NO_RETURN", "DAYS_14", "DAYS_7", "DAYS_30", "DAYS_60", "DAYS_90"]
  }

  /** The enum member whose string value is `s`, if any (what zod's `nativeEnum(Category)` accepts). */
  function CategoryFromValue(s: string): (r: Option<Category>)
    ensures r.Some? ==> r.value.Value() == s
    ensures r.None? ==> forall c: Category :: c.Value() != s
  {
    if s == "Pens" then Some(Pens)
    else if s == "Notebooks" then Some(Notebooks)
    else if s == "Staplers/Staples" then Some(StaplersStaples)
    else if s == "Sticky Notes" then Some(StickyNotes)
    else if s == "Desk Organizers" then Some(DeskOrganizers)
    else None
  }

  function AvailabilityFromValue(s: string): (r: Option<AvailabilityStatus>)
    ensures r.Some? ==> r.value.Value() == s
    ensures r.None? ==> forall a: AvailabilityStatus :: a.Value() != s
  {
    if s == "In Stock" then Some(InStock)
    else if s == "Out of Stock" then Some(OutOfStock)
    else None
  }

  function ReturnPolicyFromValue(s: string): (r: Option<ReturnPolicy>)
    ensures r.Some? ==> r.value.Value() == s
    ensures r.None? ==> forall p: ReturnPolicy :: p.Value() != s
  {
    if s == "No return policy" then Some(NoReturn)
    else if s == "14 days return policy" then Some(Days14)
    else if s == "7 days return policy" then Some(Days7)
    else if s == "30 days return policy" then Some(Days30)
    else if s == "60 days return policy" then Some(Days60)
    else if s == "90 days return policy" then Some(Days90)
    else None
  }

  /** The five categories have five distinct values, and the declaration order lists each once. */
  lemma CategoryValuesDistinct()
    ensures forall c: Category, d: Category :: c.Value() == d.Value() ==> c == d
    ensures |set c: Category | true :: c.Value()| == 5
    ensures forall c: Category :: c in CategoryOrder
    ensures forall i, j :: 0 <= i < j < |CategoryOrder| ==> CategoryOrder[i] != CategoryOrder[j]
  {
    var values := set c: Category | true :: c.Value();
    assert values == {"Pens", "Notebooks", "Staplers/Staples", "Sticky Notes", "Desk Organizers"} by {
      forall v | v in values
        ensures v in {"Pens", "Notebooks", "Staplers/Staples", "Sticky Notes", "Desk Organizers"}
      {
        var c: Category :| c.Value() == v;
      }
      assert Pens.Value() in values && Notebooks.Value() in values && StaplersStaples.Value() in values;
      assert StickyNotes.Value() in values && DeskOrganizers.Value() in values;
    }
    forall c: Category ensures c in CategoryOrder {
      match c
      case Pens => assert CategoryOrder[0] == c;
      case Notebooks => assert CategoryOrder[1] == c;
      case StaplersStaples => assert CategoryOrder[2] == c;
      case StickyNotes => assert CategoryOrder[3] == c;
      case DeskOrganizers => assert CategoryOrder[4] == c;
    }
  }

  /** `AvailabilityStatus` is exactly {"In Stock", "Out of Stock"}. */
  lemma AvailabilityValues()
    ensures forall a: AvailabilityStatus, b: AvailabilityStatus :: a.Value() == b.Value() ==> a == b
    ensures (set a: AvailabilityStatus | true :: a.Value()) == {"In Stock", "Out of Stock"}
  {
    var values := set a: AvailabilityStatus | true :: a.Value();
    assert InStock.Value() in values && OutOfStock.Value() in values;
  }

  /** The six return policies have six distinct values. */
  lemma ReturnPolicyValuesDistinct()
    ensures forall p: ReturnPolicy, q: ReturnPolicy :: p.Value() == q.Value() ==> p == q
    ensures forall p: ReturnPolicy :: p in ReturnPolicyOrder
    ensures forall i, j :: 0 <= i < j < |ReturnPolicyOrder| ==> ReturnPolicyOrder[i] != ReturnPolicyOrder[j]
  {
    forall p: ReturnPolicy ensures p in ReturnPolicyOrder {
      match p
      case NoReturn => assert ReturnPolicyOrder[0] == p;
      case Days14 => assert ReturnPolicyOrder[1] == p;
      case Days7 => assert ReturnPolicyOrder[2] == p;
      case Days30 => assert ReturnPolicyOrder[3] == p;
      case Days60 => assert ReturnPolicyOrder[4] == p;
      case Days90 => assert ReturnPolicyOrder[5] == p;
    }
  }

  /** The `all*` lists hold key names, none of which is a display value of its enum. */
  lemma KeyListsAreNotValues()
    ensures forall k :: k in AllCategories() ==> CategoryFromValue(k).None?
    ensures forall k :: k in AllAvailabilityStatuses() ==> AvailabilityFromValue(k).None?
    ensures forall k :: k in AllReturnPolicies() ==> ReturnPolicyFromValue(k).None?
  {
  }

  /** `interface Dimensions`. */
  datatype Dimensions = Dimensions(width: real, height: real, depth: real)

  /** `interface Meta`: all three fields required. */
  datatype Meta = Meta(createdAt: string, updatedAt: string, barcode: string)

  /**
   * `interface Product`.  Only discountPercentage, material, color,
   * packQuantity and pageCount are optional; availabilityStatus and
   * returnPolicy are plain strings, not the enums.
   */
  datatype Product = Product(
    id: string,
    title: string,
    description: string,
    category: Category,
    price: real,
    discountPercentage: Option<real>,
    stock: real,
    brand: string,
    weight: real,
    dimensions: Dimensions,
    material: Option<string>,
    color: Option<string>,
    packQuantity: Option<real>,
    pageCount: Option<real>,
    warrantyInformation: string,
    shippingInformation: string,
    availabilityStatus: string,
    returnPolicy: string,
    minimumOrderQuantity: real,
    meta: Meta,
    images: seq<string>)
}
