/**
 * The shopping cart (src/context/CartContext.tsx).  The provider holds one
 * `cart` state cell; every operation replaces it with a new list computed
 * from the old one by `find`, `map`, `filter` and spread, and the totals
 * are `reduce`s over it.  Prices are exact reals and quantities whole numbers.
 */
module ShoppingCart {

  /** `CartItem`. */
  datatype CartItem = CartItem(id: string, name: string, price: real, quantity: int, thumbnail: string, stock: int)

  /** The item `addToCart` is given, without a quantity. */
  datatype ItemInfo = ItemInfo(id: string, name: string, price: real, thumbnail: string, stock: int)

  /** No two lines share an id. */
  predicate DistinctIds(cart: seq<CartItem>) {
    forall i, j :: 0 <= i < j < |cart| ==> cart[i].id != cart[j].id
  }

  /** Some line has the id (`prev.find(i => i.id === id)` finds one). */
  predicate HasId(cart: seq<CartItem>, id: string) {
    exists i :: 0 <= i < |cart| && cart[i].id == id
  }

  // ---------------------------------------------------------------------
  // The new cart each operation computes

  /** `prev.map(i => i.id === id ? { ...i, quantity: i.quantity + delta } : i)`. */
  function AddToLine(cart: seq<CartItem>, id: string, delta: int): (r: seq<CartItem>)
    ensures |r| == |cart|
    ensures forall i :: 0 <= i < |cart| ==> r[i] == if cart[i].id == id then cart[i].(quantity := cart[i].quantity + delta) else cart[i]
  {
    seq(|cart|, i requires 0 <= i < |cart| => if cart[i].id == id then cart[i].(quantity := cart[i].quantity + delta) else cart[i])
  }

  /** The `addToCart` updater. */
  function Added(cart: seq<CartItem>, item: ItemInfo, quantity: int): (r: seq<CartItem>)
    ensures HasId(cart, item.id) ==> r == AddToLine(cart, item.id, quantity)
    ensures !HasId(cart, item.id) ==>
              r == cart + [CartItem(item.id, item.name, item.price, quantity, item.thumbnail, item.stock)]
  {
    if HasId(cart, item.id) then AddToLine(cart, item.id, quantity)
    else cart + [CartItem(item.id, item.name, item.price, quantity, item.thumbnail, item.stock)]
  }

  /** The `increaseQuantity` updater. */
  function Increased(cart: seq<CartItem>, id: string): (r: seq<CartItem>)
    ensures r == AddToLine(cart, id, 1)
  {
    AddToLine(cart, id, 1)
  }

  /** The `decreaseQuantity` updater: only a line with quantity above 1 loses one. */
  function Decreased(cart: seq<CartItem>, id: string): (r: seq<CartItem>)
    ensures |r| == |cart|
    ensures forall i :: 0 <= i < |cart| ==>
              r[i] == if cart[i].id == id && cart[i].quantity > 1 then cart[i].(quantity := cart[i].quantity - 1) else cart[i]
  {
    seq(|cart|, i requires 0 <= i < |cart| =>
      if cart[i].id == id && cart[i].quantity > 1 then cart[i].(quantity := cart[i].quantity - 1) else cart[i])
  }

  /** The `removeFromCart` updater: `prev.filter(i => i.id !== id)`. */
  function Removed(cart: seq<CartItem>, id: string): (r: seq<CartItem>)
    ensures |r| <= |cart|
  {
    if cart == [] then []
    else (if cart[0].id != id then [cart[0]] else []) + Removed(cart[1..], id)
  }

  /** Removal keeps exactly the lines with another id. */
  lemma {:induction false} RemovedLines(cart: seq<CartItem>, id: string)
    ensures forall x :: x in Removed(cart, id) <==> x in cart && x.id != id
  {
    if cart != [] {
      RemovedLines(cart[1..], id);
      assert forall x :: x in cart <==> x == cart[0] || x in cart[1..];
    }
  }

  predicate NoNegativeQuantity(cart: seq<CartItem>) {
    forall i :: 0 <= i < |cart| ==> cart[i].quantity >= 0
  }

  predicate NoNegativePrice(cart: seq<CartItem>) {
    forall i :: 0 <= i < |cart| ==> cart[i].price >= 0.0
  }

  /** `cart.reduce((sum, i) => sum + i.quantity, 0)`. */
  function TotalItems(cart: seq<CartItem>): int {
    if cart == [] then 0 else TotalItems(cart[..|cart| - 1]) + cart[|cart| - 1].quantity
  }

  /** `cart.reduce((sum, i) => sum + i.price * i.quantity, 0)`. */
  function TotalPrice(cart: seq<CartItem>): real {
    if cart == [] then 0.0 else TotalPrice(cart[..|cart| - 1]) + Amount(cart[|cart| - 1])
  }

  /** `price * n`. */
  function Scaled(price: real, n: int): real {
    price * (n as real)
  }

  /** A line's price times its quantity. */
  function Amount(x: CartItem): real {
    Scaled(x.price, x.quantity)
  }

  /** Changing a quantity by `delta` changes the line's amount by its price times `delta`. */
  lemma AmountShift(x: CartItem, delta: int)
    ensures Amount(x.(quantity := x.quantity + delta)) == Amount(x) + Scaled(x.price, delta)
  {
    assert ((x.quantity + delta) as real) == (x.quantity as real) + (delta as real);
  }

  // ---------------------------------------------------------------------
  // Properties of the updaters

  /** Adding an id already present adds the quantity to that line only; the length is unchanged. */
  lemma AddExisting(cart: seq<CartItem>, item: ItemInfo, quantity: int, k: nat)
    requires DistinctIds(cart) && k < |cart| && cart[k].id == item.id
    ensures var r := Added(cart, item, quantity);
      && |r| == |cart|
      && r[k] == cart[k].(quantity := cart[k].quantity + quantity)
      && forall i :: 0 <= i < |cart| && i != k ==> r[i] == cart[i]
  {
  }

  /** Adding a new id appends one line at the end with the given fields and quantity. */
  lemma AddNew(cart: seq<CartItem>, item: ItemInfo, quantity: int)
    requires !HasId(cart, item.id)
    ensures var r := Added(cart, item, quantity);
      && |r| == |cart| + 1 && r[..|cart|] == cart
      && r[|cart|] == CartItem(item.id, item.name, item.price, quantity, item.thumbnail, item.stock)
  {
    assert Added(cart, item, quantity)[..|cart|] == cart;
  }

  /** Nothing caps the quantity at the item's stock. */
  lemma AddIgnoresStock(item: ItemInfo, quantity: int)
    requires quantity > item.stock
    ensures Added([], item, quantity) == [CartItem(item.id, item.name, item.price, quantity, item.thumbnail, item.stock)]
    ensures Added([], item, quantity)[0].quantity > Added([], item, quantity)[0].stock
  {
    assert !HasId([], item.id);
  }

  /** Every operation keeps the ids pairwise distinct. */
  lemma AddedKeepsDistinct(cart: seq<CartItem>, item: ItemInfo, quantity: int)
    requires DistinctIds(cart)
    ensures DistinctIds(Added(cart, item, quantity))
  {
    var r := Added(cart, item, quantity);
    if !HasId(cart, item.id) {
      forall i, j | 0 <= i < j < |r| ensures r[i].id != r[j].id {
        if j == |cart| {
          assert r[i] == cart[i];
        }
      }
    }
  }

  lemma DecreasedKeepsDistinct(cart: seq<CartItem>, id: string)
    requires DistinctIds(cart)
    ensures DistinctIds(Decreased(cart, id)) && DistinctIds(Increased(cart, id))
  {
  }

  lemma {:induction false} RemovedKeepsDistinct(cart: seq<CartItem>, id: string)
    requires DistinctIds(cart)
    ensures DistinctIds(Removed(cart, id))
  {
    if cart != [] {
      var rest := Removed(cart[1..], id);
      TailDistinct(cart);
      RemovedKeepsDistinct(cart[1..], id);
      if cart[0].id != id {
        RemovedLines(cart[1..], id);
        HeadNotInTail(cart);
        ConsDistinct(cart[0], rest);
      }
    }
  }

  lemma TailDistinct(cart: seq<CartItem>)
    requires DistinctIds(cart) && cart != []
    ensures DistinctIds(cart[1..])
  {
    forall i, j | 0 <= i < j < |cart[1..]| ensures cart[1..][i].id != cart[1..][j].id {
      assert cart[1..][i] == cart[i + 1] && cart[1..][j] == cart[j + 1];
    }
  }

  lemma HeadNotInTail(cart: seq<CartItem>)
    requires DistinctIds(cart) && cart != []
    ensures forall x :: x in cart[1..] ==> x.id != cart[0].id
  {
    forall x | x in cart[1..] ensures x.id != cart[0].id {
      var k :| 0 <= k < |cart[1..]| && cart[1..][k] == x;
      assert cart[k + 1] == x;
    }
  }

  /** A line whose id no other line has can go in front of a cart with distinct ids. */
  lemma ConsDistinct(x: CartItem, rest: seq<CartItem>)
    requires DistinctIds(rest)
    requires forall y :: y in rest ==> y.id != x.id
    ensures DistinctIds([x] + rest)
  {
    var r := [x] + rest;
    forall i, j | 0 <= i < j < |r| ensures r[i].id != r[j].id {
      if i == 0 { assert r[j] in rest; } else { assert r[i] == rest[i - 1] && r[j] == rest[j - 1]; }
    }
  }


  /** An unknown id leaves the cart as it is for increase and decrease, and for remove. */
  lemma UnknownIdNoOp(cart: seq<CartItem>, id: string)
    requires !HasId(cart, id)
    ensures Increased(cart, id) == cart && Decreased(cart, id) == cart && Removed(cart, id) == cart
  {
    assert forall i :: 0 <= i < |cart| ==> cart[i].id != id;
    RemovedAbsent(cart, id);
  }

  lemma {:induction false} RemovedAbsent(cart: seq<CartItem>, id: string)
    requires forall i :: 0 <= i < |cart| ==> cart[i].id != id
    ensures Removed(cart, id) == cart
  {
    if cart != [] {
      RemovedAbsent(cart[1..], id);
      assert [cart[0]] + cart[1..] == cart;
    }
  }

  /** A decrease never takes a line below 1 unless it was already there, and never removes a line. */
  lemma DecreaseFloor(cart: seq<CartItem>, id: string, i: nat)
    requires i < |cart|
    ensures |Decreased(cart, id)| == |cart| && Decreased(cart, id)[i].id == cart[i].id
    ensures Decreased(cart, id)[i].quantity >= if cart[i].quantity >= 1 then 1 else cart[i].quantity
    ensures Decreased(cart, id)[i].quantity <= cart[i].quantity
  {
  }

  /** Removal keeps the other lines in their order: it distributes over concatenation. */
  lemma {:induction false} RemovedAppend(a: seq<CartItem>, b: seq<CartItem>, id: string)
    ensures Removed(a + b, id) == Removed(a, id) + Removed(b, id)
  {
    if a == [] {
      assert a + b == b;
    } else {
      assert (a + b)[1..] == a[1..] + b;
      RemovedAppend(a[1..], b, id);
    }
  }

  // ---------------------------------------------------------------------
  // Totals

  /** With no negative quantity the item count is not negative, and with no negative price neither is the price total. */
  lemma {:induction false} TotalsNonNegative(cart: seq<CartItem>)
    requires NoNegativeQuantity(cart)
    ensures TotalItems(cart) >= 0
    ensures NoNegativePrice(cart) ==> TotalPrice(cart) >= 0.0
  {
    if cart != [] {
      var front, x := cart[..|cart| - 1], cart[|cart| - 1];
      assert NoNegativeQuantity(front);
      assert NoNegativePrice(cart) ==> NoNegativePrice(front);
      TotalsNonNegative(front);
      if NoNegativePrice(cart) { NonNegativeProduct(x.price, x.quantity as real); }
    }
  }

  lemma NonNegativeProduct(a: real, b: real)
    requires a >= 0.0 && b >= 0.0
    ensures a * b >= 0.0
  {
  }

  /** The totals of a concatenation are the sums of the parts' totals. */
  lemma {:induction false} TotalsAppend(a: seq<CartItem>, b: seq<CartItem>)
    ensures TotalItems(a + b) == TotalItems(a) + TotalItems(b)
    ensures TotalPrice(a + b) == TotalPrice(a) + TotalPrice(b)
    decreases |b|
  {
    if b == [] {
      assert a + b == a;
    } else {
      var b' := b[..|b| - 1];
      assert (a + b)[..|a + b| - 1] == a + b';
      TotalsAppend(a, b');
    }
  }

  /** The totals of one line. */
  lemma TotalsSingle(x: CartItem)
    ensures TotalItems([x]) == x.quantity && TotalPrice([x]) == Amount(x)
  {
    assert [x][..0] == [];
  }

  /** Changing one line's quantity by `delta` changes the totals by `delta` and by its price times `delta`. */
  lemma {:induction false} TotalsOneLine(a: seq<CartItem>, b: seq<CartItem>, k: nat, delta: int)
    requires |a| == |b| && k < |a|
    requires b[k] == a[k].(quantity := a[k].quantity + delta)
    requires forall i :: 0 <= i < |a| && i != k ==> b[i] == a[i]
    ensures TotalItems(b) == TotalItems(a) + delta
    ensures TotalPrice(b) == TotalPrice(a) + Scaled(a[k].price, delta)
  {
    var front, back := a[..k], a[k + 1..];
    assert a == (front + [a[k]]) + back;
    assert b == (front + [b[k]]) + back;
    TotalsAroundLine(front, a[k], back);
    TotalsAroundLine(front, b[k], back);
    AmountShift(a[k], delta);
  }

  /** The totals of a list split around one line. */
  lemma TotalsAroundLine(front: seq<CartItem>, x: CartItem, back: seq<CartItem>)
    ensures TotalItems((front + [x]) + back) == TotalItems(front) + x.quantity + TotalItems(back)
    ensures TotalPrice((front + [x]) + back) == TotalPrice(front) + Amount(x) + TotalPrice(back)
  {
    TotalsAppend(front + [x], back);
    TotalsAppend(front, [x]);
    TotalsSingle(x);
  }

  /**
   * Adding `quantity` raises the item count by `quantity` and the price by
   * `quantity` times the line's price, which for an id already present is
   * the stored price, not the one passed in.
   */
  lemma AddedTotals(cart: seq<CartItem>, item: ItemInfo, quantity: int)
    requires DistinctIds(cart)
    ensures TotalItems(Added(cart, item, quantity)) == TotalItems(cart) + quantity
    ensures !HasId(cart, item.id) ==> TotalPrice(Added(cart, item, quantity)) == TotalPrice(cart) + Scaled(item.price, quantity)
    ensures forall k :: 0 <= k < |cart| && cart[k].id == item.id ==>
              TotalPrice(Added(cart, item, quantity)) == TotalPrice(cart) + Scaled(cart[k].price, quantity)
  {
    if HasId(cart, item.id) {
      var k :| 0 <= k < |cart| && cart[k].id == item.id;
      TotalsOneLine(cart, Added(cart, item, quantity), k, quantity);
    } else {
      var x := CartItem(item.id, item.name, item.price, quantity, item.thumbnail, item.stock);
      TotalsAppend(cart, [x]);
      TotalsSingle(x);
    }
  }

  /** Increasing a present line adds one item and its price. */
  lemma IncreasedTotals(cart: seq<CartItem>, id: string, k: nat)
    requires DistinctIds(cart) && k < |cart| && cart[k].id == id
    ensures TotalItems(Increased(cart, id)) == TotalItems(cart) + 1
    ensures TotalPrice(Increased(cart, id)) == TotalPrice(cart) + Scaled(cart[k].price, 1)
  {
    TotalsOneLine(cart, Increased(cart, id), k, 1);
  }

  /**
   * Decreasing a present line with quantity above 1 takes one item and its
   * price off the totals; a line at 1 or below leaves the cart, and so the
   * totals, unchanged.
   */
  lemma DecreasedTotals(cart: seq<CartItem>, id: string, k: nat)
    requires DistinctIds(cart) && k < |cart| && cart[k].id == id
    ensures cart[k].quantity > 1 ==> TotalItems(Decreased(cart, id)) == TotalItems(cart) - 1
    ensures cart[k].quantity > 1 ==> TotalPrice(Decreased(cart, id)) == TotalPrice(cart) + Scaled(cart[k].price, -1)
    ensures cart[k].quantity <= 1 ==> Decreased(cart, id) == cart
  {
    if cart[k].quantity > 1 {
      TotalsOneLine(cart, Decreased(cart, id), k, -1);
    } else {
      assert forall i :: 0 <= i < |cart| ==> Decreased(cart, id)[i] == cart[i];
    }
  }

  /** Removing a line takes exactly its quantity and its amount off the totals. */
  lemma {:induction false} RemovedTotals(cart: seq<CartItem>, id: string, k: nat)
    requires DistinctIds(cart) && k < |cart| && cart[k].id == id
    ensures TotalItems(Removed(cart, id)) == TotalItems(cart) - cart[k].quantity
    ensures TotalPrice(Removed(cart, id)) == TotalPrice(cart) - Amount(cart[k])
  {
    var before, after := cart[..k], cart[k + 1..];
    assert cart == (before + [cart[k]]) + after;
    RemovedSplit(cart, id, k);
    TotalsAroundLine(before, cart[k], after);
    TotalsAppend(before, after);
  }

  /** Removing a present id leaves the lines before it followed by the lines after it. */
  lemma RemovedSplit(cart: seq<CartItem>, id: string, k: nat)
    requires DistinctIds(cart) && k < |cart| && cart[k].id == id
    ensures Removed(cart, id) == cart[..k] + cart[k + 1..]
  {
    assert cart == cart[..k] + [cart[k]] + cart[k + 1..];
    SliceLacksId(cart, id, k, 0, k);
    SliceLacksId(cart, id, k, k + 1, |cart|);
    RemovedAround(cart[..k], cart[k], cart[k + 1..], id);
  }

  /** Removing the id from `before + [x] + after`, where only `x` has it, drops just `x`. */
  lemma RemovedAround(before: seq<CartItem>, x: CartItem, after: seq<CartItem>, id: string)
    requires x.id == id
    requires forall i :: 0 <= i < |before| ==> before[i].id != id
    requires forall i :: 0 <= i < |after| ==> after[i].id != id
    ensures Removed(before + [x] + after, id) == before + after
  {
    RemovedAbsent(before, id);
    RemovedAbsent(after, id);
    RemovedAppend(before + [x], after, id);
    RemovedAppend(before, [x], id);
    RemovedMatchingLine(x, id);
  }

  /** With distinct ids, no line away from position `k` has the id of line `k`. */
  lemma SliceLacksId(cart: seq<CartItem>, id: string, k: nat, lo: nat, hi: nat)
    requires DistinctIds(cart) && k < |cart| && cart[k].id == id
    requires lo <= hi <= |cart| && (k < lo || hi <= k)
    ensures forall i :: 0 <= i < |cart[lo..hi]| ==> cart[lo..hi][i].id != id
  {
    forall i | 0 <= i < |cart[lo..hi]| ensures cart[lo..hi][i].id != id {
      assert cart[lo..hi][i] == cart[lo + i];
    }
  }

  lemma RemovedMatchingLine(x: CartItem, id: string)
    requires x.id == id
    ensures Removed([x], id) == []
  {
    assert [x][1..] == [];
  }


  // ---------------------------------------------------------------------
  // The provider

  /** `CartProvider`: the `cart` state cell and the operations that replace it. */
  class CartProvider {
    var cart: seq<CartItem>

    /** The lines have distinct ids. */
    predicate Valid()
      reads this
    {
      DistinctIds(cart)
    }

    /** `useState<CartItem[]>([])`. */
    constructor()
      ensures cart == [] && Valid()
    {
      cart := [];
    }

    method AddToCart(item: ItemInfo, quantity: int)
      requires Valid()
      modifies this
      ensures cart == Added(old(cart), item, quantity) && Valid()
      ensures TotalItems(cart) == TotalItems(old(cart)) + quantity
    {
      AddedKeepsDistinct(cart, item, quantity);
      AddedTotals(cart, item, quantity);
      cart := Added(cart, item, quantity);
    }

    method IncreaseQuantity(id: string)
      requires Valid()
      modifies this
      ensures cart == Increased(old(cart), id) && Valid()
    {
      DecreasedKeepsDistinct(cart, id);
      cart := Increased(cart, id);
    }

    method DecreaseQuantity(id: string)
      requires Valid()
      modifies this
      ensures cart == Decreased(old(cart), id) && Valid()
      ensures |cart| == |old(cart)|
    {
      DecreasedKeepsDistinct(cart, id);
      cart := Decreased(cart, id);
    }

    method RemoveFromCart(id: string)
      requires Valid()
      modifies this
      ensures cart == Removed(old(cart), id) && Valid()
      ensures !HasId(cart, id)
    {
      RemovedKeepsDistinct(cart, id);
      RemovedLines(cart, id);
      cart := Removed(cart, id);
      assert forall i :: 0 <= i < |cart| ==> cart[i] in cart;
    }

    /** `getTotalItems()`. */
    function GetTotalItems(): (r: int)
      reads this
      ensures r == TotalItems(cart)
    {
      TotalItems(cart)
    }

    /** `getTotalPrice()`. */
    function GetTotalPrice(): (r: real)
      reads this
      ensures r == TotalPrice(cart)
    {
      TotalPrice(cart)
    }
  }
}
