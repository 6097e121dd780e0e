/**
 * The cart store of the page script: the persistent key "cart" as a field
 * that every cart operation reads in full and overwrites in full, the totals
 * computed for the cart panel, and the receipt built for the PDF download.
 */
module Store {
  import opened Wrappers
  import opened Cart
  import opened Seqs

  /** One row of the receipt table: name, quantity, unit price and line amount. */
  datatype ReceiptRow = ReceiptRow(name: string, quantity: int, price: int, amount: int)

  /** The outcome of a receipt download: the empty-cart alert, or the rows and the total. */
  datatype Receipt = EmptyCartAlert | Receipt(rows: seq<ReceiptRow>, total: int)

  function RowOf(l: CartLine): ReceiptRow {
    ReceiptRow(l.name, l.quantity, l.price, LineTotal(l))
  }

  class CartStore {
    /** The value stored under the persistent key "cart"; None while the key is absent. */
    var saved: Option<seq<CartLine>>

    /** A fresh page with nothing stored yet. */
    constructor ()
      ensures saved == None
      ensures GetCart() == []
    {
      saved := None;
    }

    /** getCart: the stored cart, or the empty cart when the key is absent. */
    function GetCart(): (cart: seq<CartLine>)
      reads this
    {
      match saved
      case None => []
      case Some(c) => c
    }

    /** saveCart: overwrite the stored cart with `cart`. */
    method SaveCart(cart: seq<CartLine>)
      modifies this
      ensures saved == Some(cart)
      ensures GetCart() == cart
    {
      saved := Some(cart);
    }

    /** addToCart: bump the first line with the product's id, or append a line with quantity one. */
    method AddToCart(p: CartProduct)
      modifies this
      ensures saved.Some?
      ensures GetCart() == WithProductAdded(old(GetCart()), p)
      ensures WellFormed(old(GetCart())) ==> WellFormed(GetCart())
      ensures ItemCount(GetCart()) == ItemCount(old(GetCart())) + 1
    {
      var cart := GetCart();
      ghost var before := cart;
      var existing := FindLine(cart, p.id);
      if existing.Some? {
        var i := existing.value;
        cart := cart[i := cart[i].(quantity := cart[i].quantity + 1)];
      } else {
        cart := cart + [NewLine(p)];
      }
      SaveCart(cart);
      if WellFormed(before) {
        AddPreservesWellFormed(before, p);
      }
      AddCountsOne(before, p);
    }

    /**
     * updateQuantity: add `change` to the first line with `id`, filter out
     * every line with `id` when the result is zero or below, and leave the
     * cart as it is when no line has `id`.
     */
    method UpdateQuantity(id: string, change: int)
      modifies this
      ensures saved.Some?
      ensures GetCart() == WithQuantityChanged(old(GetCart()), id, change)
      ensures !HasId(old(GetCart()), id) ==> GetCart() == old(GetCart())
      ensures WellFormed(old(GetCart())) ==> WellFormed(GetCart())
    {
      var cart := GetCart();
      ghost var before := cart;
      var item := FindLine(cart, id);
      if item.Some? {
        var i := item.value;
        cart := cart[i := cart[i].(quantity := cart[i].quantity + change)];
        if cart[i].quantity <= 0 {
          FilterChangedLine(before, i, cart[i]);
          cart := Seqs.Filter(cart, OtherId(id));
        }
      }
      SaveCart(cart);
      if WellFormed(before) {
        UpdatePreservesWellFormed(before, id, change);
      }
    }

    /** removeFromCart: keep the lines whose id differs from `id`. */
    method RemoveFromCart(id: string)
      modifies this
      ensures saved.Some?
      ensures GetCart() == WithoutId(old(GetCart()), id)
      ensures !HasId(GetCart(), id)
      ensures WellFormed(old(GetCart())) ==> WellFormed(GetCart())
    {
      ghost var before := GetCart();
      var cart := Seqs.Filter(GetCart(), OtherId(id));
      SaveCart(cart);
      RemoveSpec(before, id);
      if WellFormed(before) {
        RemovePreservesWellFormed(before, id);
      }
    }

    /**
     * The accumulation in updateCartUI: the subtotal and the badge count of
     * the stored cart, added up line by line.
     */
    method UpdateCartUI() returns (subtotal: int, totalCount: int)
      ensures subtotal == Subtotal(GetCart())
      ensures totalCount == ItemCount(GetCart())
      ensures GetCart() == [] ==> subtotal == 0 && totalCount == 0
      ensures WellFormed(GetCart()) ==> (totalCount == 0 <==> GetCart() == [])
    {
      var cart := GetCart();
      subtotal, totalCount := 0, 0;
      var i := 0;
      while i < |cart|
        invariant 0 <= i <= |cart|
        invariant subtotal == Subtotal(cart[..i])
        invariant totalCount == ItemCount(cart[..i])
      {
        assert cart[..i + 1][..i] == cart[..i];
        subtotal := subtotal + cart[i].price * cart[i].quantity;
        totalCount := totalCount + cart[i].quantity;
        i := i + 1;
      }
      assert cart[..|cart|] == cart;
      if WellFormed(cart) && cart != [] {
        PositiveCount(cart);
      }
    }

    /**
     * downloadReceipt: the empty-cart alert when the stored cart is empty;
     * otherwise one row per line, in cart order, and the total, which is the
     * same subtotal the cart panel shows.
     */
    method DownloadReceipt() returns (r: Receipt)
      ensures r.EmptyCartAlert? <==> GetCart() == []
      ensures r.Receipt? ==> r.total == Subtotal(GetCart())
      ensures r.Receipt? ==> r.rows == RowsOf(GetCart()) && r.total == RowsTotal(r.rows)
    {
      var cart := GetCart();
      if |cart| == 0 {
        return EmptyCartAlert;
      }
      var rows: seq<ReceiptRow> := [];
      var subtotal := 0;
      var i := 0;
      while i < |cart|
        invariant 0 <= i <= |cart|
        invariant |rows| == i
        invariant forall k :: 0 <= k < i ==> rows[k] == RowOf(cart[k])
        invariant subtotal == Subtotal(cart[..i])
      {
        assert cart[..i + 1][..i] == cart[..i];
        var itemSubtotal := cart[i].price * cart[i].quantity;
        subtotal := subtotal + itemSubtotal;
        rows := rows + [ReceiptRow(cart[i].name, cart[i].quantity, cart[i].price, itemSubtotal)];
        i := i + 1;
      }
      assert cart[..|cart|] == cart;
      ReceiptTotalIsRowSum(cart);
      r := Receipt(rows, subtotal);
    }
  }

  /** In updateQuantity the filter runs on the cart whose line `i` was already changed; that makes no difference. */
  lemma FilterChangedLine(cart: seq<CartLine>, i: nat, l: CartLine)
    requires i < |cart| && l.id == cart[i].id
    ensures Seqs.Filter(cart[i := l], OtherId(l.id)) == WithoutId(cart, l.id)
  {
    var keep := OtherId(l.id);
    SplitAt(cart, i);
    SplitAt(cart[i := l], i);
    assert cart[i := l][..i] == cart[..i];
    assert cart[i := l][i + 1..] == cart[i + 1..];
    Seqs.FilterConcat(cart[..i], [l] + cart[i + 1..], keep);
    Seqs.FilterConcat(cart[..i], [cart[i]] + cart[i + 1..], keep);
    Seqs.FilterConcat([l], cart[i + 1..], keep);
    Seqs.FilterConcat([cart[i]], cart[i + 1..], keep);
    Seqs.FilterKeepsNone([l], keep);
    Seqs.FilterKeepsNone([cart[i]], keep);
  }

  /** A non-empty well-formed cart has a positive item count. */
  lemma PositiveCount(cart: seq<CartLine>)
    requires WellFormed(cart) && cart != []
    ensures ItemCount(cart) > 0
  {
    var n := |cart| - 1;
    SumNonNegative(cart[..n], Quantity);
  }

  /**
   * The receipt total equals the sum of the amounts of its rows, and both are
   * the subtotal of the cart the rows come from.
   */
  lemma {:induction false} ReceiptTotalIsRowSum(cart: seq<CartLine>)
    ensures RowsTotal(RowsOf(cart)) == Subtotal(cart)
  {
    if cart != [] {
      var n := |cart| - 1;
      ReceiptTotalIsRowSum(cart[..n]);
      assert RowsOf(cart)[..n] == RowsOf(cart[..n]);
    }
  }

  function RowsOf(cart: seq<CartLine>): (rows: seq<ReceiptRow>)
  {
    seq(|cart|, k requires 0 <= k < |cart| => RowOf(cart[k]))
  }

  /** The sum of the amount column of a receipt table. */
  function RowsTotal(rows: seq<ReceiptRow>): int {
    if rows == [] then 0 else RowsTotal(rows[..|rows| - 1]) + rows[|rows| - 1].amount
  }
}
