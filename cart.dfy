/**
 * The shopping cart of the page script as values: the cart lines, the three
 * operations that rewrite the cart (add, change quantity, remove) as reference
 * functions, the totals shown in the cart panel and on the receipt, and the
 * properties the operations promise.
 */
module Cart {
  import opened Wrappers
  import opened Seqs

  /** The minimal projection of a catalog product that a product card hands to the cart. */
  datatype CartProduct = CartProduct(id: string, name: string, price: int, image: string, description: string)

  /** One line of the cart: a product projection together with a quantity. */
  datatype CartLine = CartLine(id: string, name: string, description: string, image: string, price: int, quantity: int)

  /** `{ ...product, quantity: 1 }`: a new line for a product not yet in the cart. */
  function NewLine(p: CartProduct): (l: CartLine)
  {
    CartLine(p.id, p.name, p.description, p.image, p.price, 1)
  }

  predicate HasId(cart: seq<CartLine>, id: string) {
    exists k :: 0 <= k < |cart| && cart[k].id == id
  }

  /** At most one line per id. */
  predicate UniqueIds(cart: seq<CartLine>) {
    forall i, j :: 0 <= i < j < |cart| ==> cart[i].id != cart[j].id
  }

  /** The cart invariant: at most one line per id, and every line holds at least one unit. */
  predicate WellFormed(cart: seq<CartLine>) {
    UniqueIds(cart) && forall i :: 0 <= i < |cart| ==> cart[i].quantity >= 1
  }

  /** Array.prototype.find on the id: the index of the first line with `id`, if any. */
  function FindLine(cart: seq<CartLine>, id: string): (r: Option<nat>)
    ensures r.Some? ==> r.value < |cart| && cart[r.value].id == id
    ensures r.Some? ==> forall k :: 0 <= k < r.value ==> cart[k].id != id
    ensures r.None? <==> !HasId(cart, id)
  {
    if cart == [] then None
    else if cart[0].id == id then Some(0)
    else match FindLine(cart[1..], id)
      case None =>
        assert forall k :: 1 <= k < |cart| ==> cart[k].id == cart[1..][k - 1].id;
        None
      case Some(i) => Some(i + 1)
  }

  /** The line test used by the filter of removeFromCart: keep the lines whose id differs. */
  function OtherId(id: string): CartLine -> bool {
    (l: CartLine) => l.id != id
  }

  /** addToCart: the first line with the product's id gains one unit, or a new line with one unit is appended. */
  function WithProductAdded(cart: seq<CartLine>, p: CartProduct): seq<CartLine> {
    match FindLine(cart, p.id)
    case Some(i) => cart[i := cart[i].(quantity := cart[i].quantity + 1)]
    case None => cart + [NewLine(p)]
  }

  /**
   * updateQuantity: the first line with `id` gains `change` units; when that
   * leaves it at zero or below, every line with `id` is filtered out; an id
   * that is not in the cart changes nothing.
   */
  function WithQuantityChanged(cart: seq<CartLine>, id: string, change: int): seq<CartLine> {
    match FindLine(cart, id)
    case None => cart
    case Some(i) =>
      var q := cart[i].quantity + change;
      if q <= 0 then WithoutId(cart, id) else cart[i := cart[i].(quantity := q)]
  }

  /** removeFromCart: the lines whose id differs from `id`, in their order. */
  function WithoutId(cart: seq<CartLine>, id: string): seq<CartLine> {
    Filter(cart, OtherId(id))
  }

  // ---------------------------------------------------------------------------
  // Totals

  /** What one line adds to the subtotal: unit price times quantity. */
  function LineTotal(l: CartLine): int {
    l.price * l.quantity
  }

  function Quantity(l: CartLine): int {
    l.quantity
  }

  /** The sum of `f` over the lines, accumulated from the first line to the last. */
  function Sum(cart: seq<CartLine>, f: CartLine -> int): int {
    if cart == [] then 0 else Sum(cart[..|cart| - 1], f) + f(cart[|cart| - 1])
  }

  /** The cart subtotal: the sum of price times quantity over the lines. */
  function Subtotal(cart: seq<CartLine>): int {
    Sum(cart, LineTotal)
  }

  /** The count in the cart badge: the sum of the quantities. */
  function ItemCount(cart: seq<CartLine>): int {
    Sum(cart, Quantity)
  }

  lemma {:induction false} SumConcat(a: seq<CartLine>, b: seq<CartLine>, f: CartLine -> int)
    ensures Sum(a + b, f) == Sum(a, f) + Sum(b, f)
    decreases |b|
  {
    if b == [] {
      assert a + b == a;
    } else {
      var n := |b| - 1;
      assert (a + b)[..|a + b| - 1] == a + b[..n];
      assert (a + b)[|a + b| - 1] == b[n];
      SumConcat(a, b[..n], f);
    }
  }

  /** Replacing one line changes a sum by exactly the difference between the two lines. */
  lemma SumUpdate(cart: seq<CartLine>, i: nat, l: CartLine, f: CartLine -> int)
    requires i < |cart|
    ensures Sum(cart[i := l], f) == Sum(cart, f) - f(cart[i]) + f(l)
  {
    SumSplit(cart, i, f);
    SumSplit(cart[i := l], i, f);
    assert cart[i := l][..i] == cart[..i];
    assert cart[i := l][i + 1..] == cart[i + 1..];
  }

  lemma SumSplit(cart: seq<CartLine>, i: nat, f: CartLine -> int)
    requires i < |cart|
    ensures Sum(cart, f) == Sum(cart[..i], f) + f(cart[i]) + Sum(cart[i + 1..], f)
  {
    var before, line, after := cart[..i], [cart[i]], cart[i + 1..];
    assert cart == (before + line) + after;
    SumConcat(before + line, after, f);
    SumConcat(before, line, f);
    assert Sum(line, f) == f(cart[i]) by {
      assert line[..0] == [];
    }
  }

  /** A sum over lines that each contribute a non-negative amount is non-negative. */
  lemma {:induction false} SumNonNegative(cart: seq<CartLine>, f: CartLine -> int)
    requires forall i :: 0 <= i < |cart| ==> f(cart[i]) >= 0
    ensures Sum(cart, f) >= 0
  {
    if cart != [] {
      SumNonNegative(cart[..|cart| - 1], f);
    }
  }

  // ---------------------------------------------------------------------------
  // addToCart

  /**
   * Adding a product whose id is already in the cart: the first line with that
   * id gains exactly one unit and keeps everything else; every other line and
   * the length are unchanged.
   */
  lemma AddExisting(cart: seq<CartLine>, p: CartProduct, j: nat)
    requires j < |cart| && cart[j].id == p.id
    requires forall k :: 0 <= k < j ==> cart[k].id != p.id
    ensures |WithProductAdded(cart, p)| == |cart|
    ensures WithProductAdded(cart, p)[j] == cart[j].(quantity := cart[j].quantity + 1)
    ensures forall k :: 0 <= k < |cart| && k != j ==> WithProductAdded(cart, p)[k] == cart[k]
  {
  }

  /** In a well-formed cart, the line with the product's id is the first one. */
  lemma AddExistingWellFormed(cart: seq<CartLine>, p: CartProduct, j: nat)
    requires WellFormed(cart)
    requires j < |cart| && cart[j].id == p.id
    ensures |WithProductAdded(cart, p)| == |cart|
    ensures WithProductAdded(cart, p)[j] == cart[j].(quantity := cart[j].quantity + 1)
    ensures forall k :: 0 <= k < |cart| && k != j ==> WithProductAdded(cart, p)[k] == cart[k]
  {
  }

  /**
   * Adding a product whose id is not in the cart appends a line with quantity
   * one at the end, and keeps every earlier line.
   */
  lemma AddNew(cart: seq<CartLine>, p: CartProduct)
    requires !HasId(cart, p.id)
    ensures |WithProductAdded(cart, p)| == |cart| + 1
    ensures WithProductAdded(cart, p)[..|cart|] == cart
    ensures WithProductAdded(cart, p)[|cart|] == CartLine(p.id, p.name, p.description, p.image, p.price, 1)
  {
  }

  /** Adding keeps the cart invariant. */
  lemma AddPreservesWellFormed(cart: seq<CartLine>, p: CartProduct)
    requires WellFormed(cart)
    ensures WellFormed(WithProductAdded(cart, p))
  {
  }

  /** Adding always raises the item count by exactly one. */
  lemma AddCountsOne(cart: seq<CartLine>, p: CartProduct)
    ensures ItemCount(WithProductAdded(cart, p)) == ItemCount(cart) + 1
  {
    match FindLine(cart, p.id)
    case Some(i) =>
      SumUpdate(cart, i, cart[i].(quantity := cart[i].quantity + 1), Quantity);
    case None =>
      SumConcat(cart, [NewLine(p)], Quantity);
      assert [NewLine(p)][..0] == [];
  }

  /**
   * Adding raises the subtotal by one unit price: the price already stored on
   * the existing line when the id is present (not the product's current price),
   * else the product's price.
   */
  lemma AddRaisesSubtotal(cart: seq<CartLine>, p: CartProduct)
    ensures FindLine(cart, p.id).Some? ==>
      Subtotal(WithProductAdded(cart, p)) == Subtotal(cart) + cart[FindLine(cart, p.id).value].price
    ensures FindLine(cart, p.id).None? ==>
      Subtotal(WithProductAdded(cart, p)) == Subtotal(cart) + p.price
  {
    match FindLine(cart, p.id)
    case Some(i) =>
      var l := cart[i].(quantity := cart[i].quantity + 1);
      SumUpdate(cart, i, l, LineTotal);
      assert LineTotal(l) == LineTotal(cart[i]) + cart[i].price;
    case None =>
      SumConcat(cart, [NewLine(p)], LineTotal);
      assert [NewLine(p)][..0] == [];
  }

  /** Adding a new product twice gives one line with quantity two, never two lines. */
  lemma AddTwiceMerges(cart: seq<CartLine>, p: CartProduct)
    requires !HasId(cart, p.id)
    ensures WithProductAdded(WithProductAdded(cart, p), p) == cart + [NewLine(p).(quantity := 2)]
  {
    var once := WithProductAdded(cart, p);
    AddNew(cart, p);
    assert once[|cart|].id == p.id;
    AddExisting(once, p, |cart|);
  }

  // ---------------------------------------------------------------------------
  // updateQuantity

  /** An id that is not in the cart leaves the cart exactly as it was. */
  lemma UpdateAbsentIsNoOp(cart: seq<CartLine>, id: string, change: int)
    requires !HasId(cart, id)
    ensures WithQuantityChanged(cart, id, change) == cart
  {
  }

  /**
   * When the first line with `id` would drop to zero or below, no line with
   * `id` remains and the other lines keep their order and their multiplicity.
   */
  lemma UpdateDropsLine(cart: seq<CartLine>, id: string, change: int, j: nat)
    requires j < |cart| && cart[j].id == id
    requires forall k :: 0 <= k < j ==> cart[k].id != id
    requires cart[j].quantity + change <= 0
    ensures WithQuantityChanged(cart, id, change) == WithoutId(cart, id)
    ensures !HasId(WithQuantityChanged(cart, id, change), id)
    ensures IsSubsequence(WithQuantityChanged(cart, id, change), cart)
  {
    var r := FindLine(cart, id);
    assert r.value == j;
    RemoveSpec(cart, id);
  }

  /** When the first line with `id` stays positive, only that line changes, to its old quantity plus `change`. */
  lemma UpdateChangesLine(cart: seq<CartLine>, id: string, change: int, j: nat)
    requires j < |cart| && cart[j].id == id
    requires forall k :: 0 <= k < j ==> cart[k].id != id
    requires cart[j].quantity + change > 0
    ensures |WithQuantityChanged(cart, id, change)| == |cart|
    ensures WithQuantityChanged(cart, id, change)[j] == cart[j].(quantity := cart[j].quantity + change)
    ensures forall k :: 0 <= k < |cart| && k != j ==> WithQuantityChanged(cart, id, change)[k] == cart[k]
  {
  }

  /** Decrementing a line that holds one unit removes that line entirely. */
  lemma DecrementLastUnitRemoves(cart: seq<CartLine>, j: nat)
    requires WellFormed(cart)
    requires j < |cart| && cart[j].quantity == 1
    ensures WithQuantityChanged(cart, cart[j].id, -1) == cart[..j] + cart[j + 1..]
  {
    UpdateDropsLine(cart, cart[j].id, -1, j);
    RemoveUnique(cart, j);
  }

  /** Changing a quantity keeps the cart invariant. */
  lemma UpdatePreservesWellFormed(cart: seq<CartLine>, id: string, change: int)
    requires WellFormed(cart)
    ensures WellFormed(WithQuantityChanged(cart, id, change))
  {
    match FindLine(cart, id)
    case None =>
    case Some(i) =>
      if cart[i].quantity + change <= 0 {
        RemovePreservesWellFormed(cart, id);
      }
  }

  /**
   * In a well-formed cart, changing the quantity of a present line by `change`
   * moves the item count by `change`, or by minus the line's quantity when the
   * line is dropped.
   */
  lemma UpdateCount(cart: seq<CartLine>, j: nat, change: int)
    requires WellFormed(cart) && j < |cart|
    ensures var r := WithQuantityChanged(cart, cart[j].id, change);
      ItemCount(r) == ItemCount(cart) + (if cart[j].quantity + change <= 0 then -cart[j].quantity else change)
  {
    var id := cart[j].id;
    var r := FindLine(cart, id);
    assert r.value == j;
    if cart[j].quantity + change <= 0 {
      RemoveUnique(cart, j);
      SumSplit(cart, j, Quantity);
      SumConcat(cart[..j], cart[j + 1..], Quantity);
    } else {
      SumUpdate(cart, j, cart[j].(quantity := cart[j].quantity + change), Quantity);
    }
  }

  // ---------------------------------------------------------------------------
  // removeFromCart

  /**
   * After removal no line has `id`; the result is the original lines kept in
   * their original order, each line with another id keeping every copy.
   */
  lemma RemoveSpec(cart: seq<CartLine>, id: string)
    ensures !HasId(WithoutId(cart, id), id)
    ensures IsSubsequence(WithoutId(cart, id), cart)
    ensures forall l :: multiset(WithoutId(cart, id))[l] == if l.id != id then multiset(cart)[l] else 0
  {
    FilterIsSubsequence(cart, OtherId(id));
    FilterMultiset(cart, OtherId(id));
  }

  /** Removing twice is removing once. */
  lemma RemoveIdempotent(cart: seq<CartLine>, id: string)
    ensures WithoutId(WithoutId(cart, id), id) == WithoutId(cart, id)
  {
    FilterIdempotent(cart, OtherId(id));
  }

  /** Removing an id that is not in the cart leaves the cart unchanged. */
  lemma RemoveAbsentIsNoOp(cart: seq<CartLine>, id: string)
    requires !HasId(cart, id)
    ensures WithoutId(cart, id) == cart
  {
    FilterKeepsAll(cart, OtherId(id));
  }

  /** In a well-formed cart, removing the id of line `j` deletes exactly that line. */
  lemma RemoveUnique(cart: seq<CartLine>, j: nat)
    requires UniqueIds(cart) && j < |cart|
    ensures WithoutId(cart, cart[j].id) == cart[..j] + cart[j + 1..]
  {
    var x := cart[j];
    var keep := OtherId(x.id);
    var before, after := cart[..j], cart[j + 1..];
    assert !HasId(before, x.id) by {
      forall k | 0 <= k < |before| ensures before[k].id != x.id { assert before[k] == cart[k]; }
    }
    assert !HasId(after, x.id) by {
      forall k | 0 <= k < |after| ensures after[k].id != x.id { assert after[k] == cart[j + 1 + k]; }
    }
    RemoveAbsentIsNoOp(before, x.id);
    RemoveAbsentIsNoOp(after, x.id);
    assert Filter([x], keep) == [] by {
      assert !keep(x);
      FilterKeepsNone([x], keep);
    }
    SplitAt(cart, j);
    FilterConcat(before, [x] + after, keep);
    FilterConcat([x], after, keep);
    calc {
      WithoutId(cart, x.id);
      Filter(before + ([x] + after), keep);
      Filter(before, keep) + Filter([x] + after, keep);
      before + (Filter([x], keep) + Filter(after, keep));
      before + ([] + after);
      { assert [] + after == after; }
      before + after;
    }
  }

  lemma SplitAt(cart: seq<CartLine>, j: nat)
    requires j < |cart|
    ensures cart == cart[..j] + ([cart[j]] + cart[j + 1..])
  {
  }

  /** Removing keeps the cart invariant. */
  lemma {:induction false} RemovePreservesWellFormed(cart: seq<CartLine>, id: string)
    requires WellFormed(cart)
    ensures WellFormed(WithoutId(cart, id))
  {
    FilterWellFormed(cart, OtherId(id));
  }

  /** Any filter keeps the cart invariant. */
  lemma {:induction false} FilterWellFormed(cart: seq<CartLine>, keep: CartLine -> bool)
    requires WellFormed(cart)
    ensures WellFormed(Filter(cart, keep))
  {
    if cart != [] {
      var tail := cart[1..];
      assert WellFormed(tail) by {
        assert forall i :: 0 <= i < |tail| ==> tail[i] == cart[i + 1];
      }
      FilterWellFormed(tail, keep);
      var rest := Filter(tail, keep);
      if keep(cart[0]) {
        assert Filter(cart, keep) == [cart[0]] + rest;
        assert !HasId(tail, cart[0].id) by {
          assert forall k :: 0 <= k < |tail| ==> tail[k] == cart[k + 1];
        }
        forall i | 0 <= i < |rest|
          ensures rest[i].id != cart[0].id
        {
          assert rest[i] in tail;
        }
        ConsWellFormed(cart[0], rest);
      } else {
        assert Filter(cart, keep) == rest;
      }
    }
  }

  /** A line put in front of a well-formed cart that has no line with its id gives a well-formed cart. */
  lemma ConsWellFormed(l: CartLine, rest: seq<CartLine>)
    requires WellFormed(rest) && l.quantity >= 1
    requires forall i :: 0 <= i < |rest| ==> rest[i].id != l.id
    ensures WellFormed([l] + rest)
  {
  }

  /** In a well-formed cart, removing a present line lowers the item count by its quantity. */
  lemma RemoveCount(cart: seq<CartLine>, j: nat)
    requires WellFormed(cart) && j < |cart|
    ensures ItemCount(WithoutId(cart, cart[j].id)) == ItemCount(cart) - cart[j].quantity
    ensures ItemCount(WithoutId(cart, cart[j].id)) < ItemCount(cart)
  {
    RemoveUnique(cart, j);
    SumSplit(cart, j, Quantity);
    SumConcat(cart[..j], cart[j + 1..], Quantity);
  }

  // ---------------------------------------------------------------------------
  // A worked example

  /**
   * Products "a" at 100 and "b" at 50: adding "a" twice and "b" once gives the
   * lines a x 2 and b x 1, a subtotal of 250 and an item count of 3.
   */
  lemma TwoProductScenario(a: CartProduct, b: CartProduct)
    requires a.id == "a" && a.price == 100 && b.id == "b" && b.price == 50
    ensures var cart := WithProductAdded(WithProductAdded(WithProductAdded([], a), a), b);
      && cart == [NewLine(a).(quantity := 2), NewLine(b)]
      && Subtotal(cart) == 250 && ItemCount(cart) == 3
  {
    AddTwiceMerges([], a);
    var la, lb := NewLine(a).(quantity := 2), NewLine(b);
    var two := WithProductAdded(WithProductAdded([], a), a);
    assert two == [la];
    assert !HasId(two, b.id);
    var cart := WithProductAdded(two, b);
    assert cart == [la, lb];
    assert cart[..1] == [la];
    assert [la][..0] == [];
    assert Subtotal([la]) == Subtotal([]) + LineTotal(la) == 200;
    assert Subtotal(cart) == Subtotal([la]) + LineTotal(lb) == 250;
    assert ItemCount([la]) == ItemCount([]) + Quantity(la) == 2;
    assert ItemCount(cart) == ItemCount([la]) + Quantity(lb) == 3;
  }
}
