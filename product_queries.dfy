/**
 * The read side of the catalogue (src/utils/products.ts): timestamp
 * conversion of stored documents, the assembly of a product object from a
 * document, and the three queries.  The store is a parameter: the
 * collection's documents in snapshot order, or a store error.
 */
module ProductQueries {
  import opened Wrappers
  import opened JsRuntime
  import opened ProductTypes
  import opened Json

  // ---------------------------------------------------------------------
  // convertTimestamps

  /**
   * What `convertTimestamps` computes: a timestamp becomes its ISO string,
   * arrays and objects are converted element by element, and every other
   * value, `null` and `undefined` included, is returned as it is.
   */
  function Converted(v: Value, env: Env): (r: Value)
    ensures !v.Ts? && !v.Arr? && !v.Obj? ==> r == v
    ensures v.Arr? ==> r.Arr? && |r.items| == |v.items|
    ensures v.Obj? ==> r.Obj? && |r.members| == |v.members|
  {
    match v
    case Ts(s, n) => Prim(PStr(env.isoString(s, n)))
    case Arr(xs) => Arr(ConvertedItems(xs, env))
    case Obj(ms) => Obj(ConvertedMembers(ms, env))
    case _ => v
  }

  function ConvertedItems(xs: seq<Value>, env: Env): (r: seq<Value>)
    ensures |r| == |xs|
  {
    if xs == [] then [] else [Converted(xs[0], env)] + ConvertedItems(xs[1..], env)
  }

  function ConvertedMembers(ms: seq<Member>, env: Env): (r: seq<Member>)
    ensures |r| == |ms|
  {
    if ms == [] then [] else [Member(ms[0].key, Converted(ms[0].value, env))] + ConvertedMembers(ms[1..], env)
  }

  /** No timestamp anywhere in the tree. */
  predicate NoTimestamps(v: Value) {
    match v
    case Ts(_, _) => false
    case Arr(xs) => forall x :: x in xs ==> NoTimestamps(x)
    case Obj(ms) => forall m :: m in ms ==> NoTimestamps(m.value)
    case _ => true
  }

  /** Arrays keep their length and order, each element converted. */
  lemma {:induction false} ConvertedItemsPointwise(xs: seq<Value>, env: Env)
    ensures |ConvertedItems(xs, env)| == |xs|
    ensures forall i :: 0 <= i < |xs| ==> ConvertedItems(xs, env)[i] == Converted(xs[i], env)
  {
    if xs != [] {
      ConvertedItemsPointwise(xs[1..], env);
      assert forall i :: 1 <= i < |xs| ==> xs[i] == xs[1..][i - 1];
    }
  }

  /** Objects keep exactly their keys, in order, each value converted. */
  lemma {:induction false} ConvertedMembersPointwise(ms: seq<Member>, env: Env)
    ensures |ConvertedMembers(ms, env)| == |ms|
    ensures Keys(ConvertedMembers(ms, env)) == Keys(ms)
    ensures forall i :: 0 <= i < |ms| ==> ConvertedMembers(ms, env)[i].value == Converted(ms[i].value, env)
  {
    if ms != [] {
      ConvertedMembersPointwise(ms[1..], env);
      assert forall i :: 1 <= i < |ms| ==> ms[i] == ms[1..][i - 1];
    }
  }

  /** No timestamp is left anywhere in the result. */
  lemma {:induction false} ConvertedHasNoTimestamps(v: Value, env: Env)
    ensures NoTimestamps(Converted(v, env))
  {
    match v {
      case Arr(xs) => ConvertedItemsHaveNoTimestamps(xs, env);
      case Obj(ms) => ConvertedMembersHaveNoTimestamps(ms, env);
      case _ =>
    }
  }

  lemma {:induction false} ConvertedItemsHaveNoTimestamps(xs: seq<Value>, env: Env)
    ensures forall x :: x in ConvertedItems(xs, env) ==> NoTimestamps(x)
  {
    if xs != [] {
      ConvertedHasNoTimestamps(xs[0], env);
      ConvertedItemsHaveNoTimestamps(xs[1..], env);
    }
  }

  lemma {:induction false} ConvertedMembersHaveNoTimestamps(ms: seq<Member>, env: Env)
    ensures forall m :: m in ConvertedMembers(ms, env) ==> NoTimestamps(m.value)
  {
    if ms != [] {
      ConvertedHasNoTimestamps(ms[0].value, env);
      ConvertedMembersHaveNoTimestamps(ms[1..], env);
    }
  }

  /** A tree without timestamps is left as it is. */
  lemma {:induction false} ConvertedFixpoint(v: Value, env: Env)
    requires NoTimestamps(v)
    ensures Converted(v, env) == v
  {
    match v
    case Arr(xs) => ConvertedItemsFixpoint(xs, env);
    case Obj(ms) => ConvertedMembersFixpoint(ms, env);
    case _ =>
  }

  lemma {:induction false} ConvertedItemsFixpoint(xs: seq<Value>, env: Env)
    requires forall x :: x in xs ==> NoTimestamps(x)
    ensures ConvertedItems(xs, env) == xs
  {
    if xs != [] {
      ConvertedFixpoint(xs[0], env);
      ConvertedItemsFixpoint(xs[1..], env);
    }
  }

  lemma {:induction false} ConvertedMembersFixpoint(ms: seq<Member>, env: Env)
    requires forall m :: m in ms ==> NoTimestamps(m.value)
    ensures ConvertedMembers(ms, env) == ms
  {
    if ms != [] {
      ConvertedFixpoint(ms[0].value, env);
      ConvertedMembersFixpoint(ms[1..], env);
    }
  }

  /** Converting twice gives the same result as converting once. */
  lemma ConvertedIdempotent(v: Value, env: Env)
    ensures Converted(Converted(v, env), env) == Converted(v, env)
  {
    ConvertedHasNoTimestamps(v, env);
    ConvertedFixpoint(Converted(v, env), env);
  }

  /** `convertTimestamps(data)`: `data.map(...)` for an array, the `for ... of Object.entries(data)` loop for an object. */
  method ConvertTimestamps(v: Value, env: Env) returns (r: Value)
    ensures r == Converted(v, env)
    decreases v, 1
  {
    match v {
      case Undef => r := v;
      case Nil => r := v;
      case Ts(s, n) => r := Prim(PStr(env.isoString(s, n)));
      case Arr(xs) =>
        var items := ConvertItems(xs, env);
        r := Arr(items);
      case Obj(ms) =>
        var converted := ConvertMembers(ms, env);
        r := Obj(converted);
      case Prim(_) => r := v;
    }
  }

  method ConvertItems(xs: seq<Value>, env: Env) returns (items: seq<Value>)
    ensures items == ConvertedItems(xs, env)
    decreases xs, 0
  {
    items := [];
    var i := 0;
    while i < |xs|
      invariant 0 <= i <= |xs|
      invariant items + ConvertedItems(xs[i..], env) == ConvertedItems(xs, env)
    {
      var c := ConvertTimestamps(xs[i], env);
      assert xs[i..] == [xs[i]] + xs[i + 1..];
      items := items + [c];
      i := i + 1;
    }
    assert xs[i..] == [];
  }

  method ConvertMembers(ms: seq<Member>, env: Env) returns (converted: seq<Member>)
    ensures converted == ConvertedMembers(ms, env)
    decreases ms, 0
  {
    converted := [];
    var i := 0;
    while i < |ms|
      invariant 0 <= i <= |ms|
      invariant converted + ConvertedMembers(ms[i..], env) == ConvertedMembers(ms, env)
    {
      assert ms[i] in ms;
      var c := ConvertTimestamps(ms[i].value, env);
      assert ms[i..] == [ms[i]] + ms[i + 1..];
      converted := converted + [Member(ms[i].key, c)];
      i := i + 1;
    }
    assert ms[i..] == [];
  }

  // ---------------------------------------------------------------------
  // Assembling a product

  /** A stored document: its id and its data object. */
  datatype Doc = Doc(id: string, data: seq<Member>)

  /**
   * `obj[key] = value` on an object whose members are in insertion order:
   * an existing key keeps its place, a new key goes last.  JavaScript lists
   * integer-like keys ("0", "2024") first, in ascending order; the model
   * keeps them in insertion order too.
   */
  function Assign(obj: seq<Member>, key: string, value: Value): (r: seq<Member>)
    ensures key in Keys(obj) ==> |r| == |obj| && Keys(r) == Keys(obj)
    ensures key !in Keys(obj) ==> r == obj + [Member(key, value)]
  {
    if obj == [] then [Member(key, value)]
    else if obj[0].key == key then [Member(key, value)] + obj[1..]
    else [obj[0]] + Assign(obj[1..], key, value)
  }

  /** `{...obj, ...source}`: the source's entries assigned in order. */
  function Spread(obj: seq<Member>, source: seq<Member>): (r: seq<Member>)
    ensures |obj| <= |r| <= |obj| + |source|
    decreases |source|
  {
    if source == [] then obj else Spread(Assign(obj, source[0].key, source[0].value), source[1..])
  }

  /** `{ id: doc.id, ...convertTimestamps(doc.data()) }`. */
  function Assemble(d: Doc, env: Env): (r: seq<Member>)
    ensures 1 <= |r| <= 1 + |d.data|
  {
    Spread([Member("id", Prim(PStr(d.id)))], ConvertedMembers(d.data, env))
  }

  /** After an assignment, the key holds the new value and every other key keeps its own. */
  lemma {:induction false} LookupAssign(obj: seq<Member>, key: string, value: Value, k: string)
    ensures Lookup(Assign(obj, key, value), k) == if k == key then Some(value) else Lookup(obj, k)
  {
    if obj != [] && obj[0].key != key {
      LookupAssign(obj[1..], key, value, k);
    }
  }

  /** The spread object answers a key from the last source entry that has it, else from the target. */
  lemma {:induction false} LookupSpread(obj: seq<Member>, source: seq<Member>, k: string)
    requires DistinctKeys(source)
    ensures Lookup(Spread(obj, source), k) == if k in Keys(source) then Lookup(source, k) else Lookup(obj, k)
    decreases |source|
  {
    if source != [] {
      var obj' := Assign(obj, source[0].key, source[0].value);
      assert DistinctKeys(source[1..]);
      LookupSpread(obj', source[1..], k);
      LookupAssign(obj, source[0].key, source[0].value, k);
      assert Keys(source) == [source[0].key] + Keys(source[1..]);
      if k == source[0].key {
        assert k !in Keys(source[1..]);
      }
    }
  }

  /** The spread never drops the target's keys, and in insertion order "id" stays the first key. */
  lemma {:induction false} SpreadKeepsFirst(obj: seq<Member>, source: seq<Member>)
    requires |obj| > 0
    ensures |Spread(obj, source)| > 0 && Spread(obj, source)[0].key == obj[0].key
    decreases |source|
  {
    if source != [] {
      var obj' := Assign(obj, source[0].key, source[0].value);
      assert Keys(obj)[0] == obj[0].key;
      if source[0].key in Keys(obj) {
        assert Keys(obj')[0] == obj'[0].key;
      } else {
        assert obj'[0] == obj[0];
      }
      SpreadKeepsFirst(obj', source[1..]);
    }
  }

  /**
   * The assembled product carries the document id under "id" unless the
   * data has an "id" field of its own, which then overrides it; every other
   * field is the converted data's, and "id" is the first key in insertion order.
   */
  lemma AssembledFields(d: Doc, env: Env, k: string)
    requires DistinctKeys(d.data)
    ensures Lookup(Assemble(d, env), "id") ==
      if "id" in Keys(d.data) then Some(Converted(Lookup(d.data, "id").value, env)) else Some(Prim(PStr(d.id)))
    ensures k != "id" ==>
              Lookup(Assemble(d, env), k) == if k in Keys(d.data) then Some(Converted(Lookup(d.data, k).value, env)) else None
    ensures Assemble(d, env)[0].key == "id"
  {
    var cs := ConvertedMembers(d.data, env);
    ConvertedMembersPointwise(d.data, env);
    ConvertedLookup(d.data, env, "id");
    ConvertedLookup(d.data, env, k);
    assert DistinctKeys(cs) by {
      forall i, j | 0 <= i < j < |cs| ensures cs[i].key != cs[j].key {
        assert Keys(cs)[i] == Keys(d.data)[i] && Keys(cs)[j] == Keys(d.data)[j];
      }
    }
    LookupSpread([Member("id", Prim(PStr(d.id)))], cs, "id");
    LookupSpread([Member("id", Prim(PStr(d.id)))], cs, k);
    SpreadKeepsFirst([Member("id", Prim(PStr(d.id)))], cs);
  }

  /** Looking a key up after conversion finds the converted value. */
  lemma {:induction false} ConvertedLookup(ms: seq<Member>, env: Env, k: string)
    ensures Lookup(ConvertedMembers(ms, env), k) == if k in Keys(ms) then Some(Converted(Lookup(ms, k).value, env)) else None
  {
    if ms != [] {
      ConvertedLookup(ms[1..], env, k);
      assert Keys(ms) == [ms[0].key] + Keys(ms[1..]);
    }
  }

  /** The product objects for a list of documents, in order. */
  function AssembleAll(docs: seq<Doc>, env: Env): (r: seq<seq<Member>>)
    ensures |r| == |docs| && forall i :: 0 <= i < |docs| ==> r[i] == Assemble(docs[i], env)
  {
    seq(|docs|, i requires 0 <= i < |docs| => Assemble(docs[i], env))
  }

  /** `querySnapshot.forEach(doc => products.push({ id: doc.id, ...convertTimestamps(doc.data()) }))`. */
  method CollectProducts(docs: seq<Doc>, env: Env) returns (products: seq<seq<Member>>)
    ensures products == AssembleAll(docs, env)
  {
    products := [];
    var i := 0;
    while i < |docs|
      invariant 0 <= i <= |docs|
      invariant products == AssembleAll(docs[..i], env)
    {
      var converted := ConvertMembers(docs[i].data, env);
      products := products + [Spread([Member("id", Prim(PStr(docs[i].id)))], converted)];
      i := i + 1;
    }
    assert docs[..i] == docs;
  }

  // ---------------------------------------------------------------------
  // The queries

  /** What a store read gives: the documents, or an error. */
  datatype Read<T> = Loaded(value: T) | StoreError

  /** The document's `category` field equals the category's value. */
  predicate InCategory(d: Doc, category: Category) {
    Lookup(d.data, "category") == Some(Prim(PStr(category.Value())))
  }

  /** `query(productsRef, where("category", "==", category))`, in snapshot order. */
  function Where(docs: seq<Doc>, category: Category): (r: seq<Doc>)
    ensures |r| <= |docs|
    ensures forall d :: d in r <==> d in docs && InCategory(d, category)
  {
    if docs == [] then []
    else (if InCategory(docs[0], category) then [docs[0]] else []) + Where(docs[1..], category)
  }

  /** The filter keeps snapshot order: it distributes over concatenation. */
  lemma {:induction false} WhereAppend(a: seq<Doc>, b: seq<Doc>, category: Category)
    ensures Where(a + b, category) == Where(a, category) + Where(b, category)
  {
    if a == [] {
      assert a + b == b;
    } else {
      assert (a + b)[1..] == a[1..] + b;
      WhereAppend(a[1..], b, category);
    }
  }

  /** `getProductsByCategory(category)`: the matching documents' products, or [] on a store error. */
  method GetProductsByCategory(category: Category, store: Read<seq<Doc>>, env: Env) returns (products: seq<seq<Member>>)
    ensures store.StoreError? ==> products == []
    ensures store.Loaded? ==> products == AssembleAll(Where(store.value, category), env)
  {
    match store {
      case StoreError => products := [];
      case Loaded(docs) => products := CollectProducts(Where(docs, category), env);
    }
  }

  /** `getAllProducts()`: every document's product in snapshot order, or [] on a store error. */
  method GetAllProducts(store: Read<seq<Doc>>, env: Env) returns (products: seq<seq<Member>>)
    ensures store.StoreError? ==> products == []
    ensures store.Loaded? ==> products == AssembleAll(store.value, env)
  {
    match store {
      case StoreError => products := [];
      case Loaded(docs) => products := CollectProducts(docs, env);
    }
  }

  /** `getDoc(doc(productsRef, id))`: the document with that id, if any. */
  function FindDoc(docs: seq<Doc>, id: string): (r: Option<Doc>)
    ensures r.None? <==> forall d :: d in docs ==> d.id != id
    ensures r.Some? ==> r.value in docs && r.value.id == id
  {
    if docs == [] then None else if docs[0].id == id then Some(docs[0]) else FindDoc(docs[1..], id)
  }

  /** `getProductById(id)`: the product, or null when the document is missing or the store fails. */
  function GetProductById(id: string, store: Read<seq<Doc>>, env: Env): (r: Option<seq<Member>>)
    ensures store.StoreError? ==> r.None?
    ensures store.Loaded? ==> (r.None? <==> forall d :: d in store.value ==> d.id != id)
    ensures r.Some? ==> exists d :: d in store.value && d.id == id && r.value == Assemble(d, env)
  {
    match store
    case StoreError => None
    case Loaded(docs) =>
      match FindDoc(docs, id)
      case None => None
      case Some(d) => Some(Assemble(d, env))
  }

  /** A product read by id answers its own id, unless its data carries an "id" field. */
  lemma ProductByIdKeepsId(id: string, store: Read<seq<Doc>>, env: Env)
    requires store.Loaded? && forall d :: d in store.value ==> DistinctKeys(d.data) && "id" !in Keys(d.data)
    ensures var r := GetProductById(id, store, env);
      r.Some? ==> Lookup(r.value, "id") == Some(Prim(PStr(id)))
  {
    var r := GetProductById(id, store, env);
    if r.Some? {
      var d := FindDoc(store.value, id).value;
      AssembledFields(d, env, "id");
    }
  }

  /** Every product by category carries that category, converted from the stored value. */
  lemma ProductsByCategoryMatch(category: Category, docs: seq<Doc>, env: Env, i: nat)
    requires i < |Where(docs, category)| && DistinctKeys(Where(docs, category)[i].data)
    ensures Lookup(AssembleAll(Where(docs, category), env)[i], "category") == Some(Prim(PStr(category.Value())))
  {
    var d := Where(docs, category)[i];
    assert d in Where(docs, category);
    assert InCategory(d, category);
    assert "category" in Keys(d.data);
    AssembledFields(d, env, "category");
  }
}
