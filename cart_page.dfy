/**
 * The values the cart page derives from the cart lines: per-line totals, the
 * subtotal, the (free) shipping, the total, and the choice of the empty view.
 * Amounts are integer minor units.
 */
module CartPage {
  import opened Types
  import Seqs

  /** Shipping is free: a fixed policy, never computed. */
  const SHIPPING := 0

  /** The amount shown beside a line: unit price times quantity. */
  function LineTotal(item: CartItem): (r: int)
    ensures item.Price() >= 0 && item.quantity >= 0 ==> r >= 0
    ensures item.quantity == 0 ==> r == 0
    ensures item.quantity == 1 ==> r == item.Price()
  {
    item.Price() * item.quantity
  }

  /** One more unit on a line adds its unit price to the line total. */
  lemma LineTotalOneMore(item: CartItem)
    ensures LineTotal(item.(quantity := item.quantity + 1)) == LineTotal(item) + item.Price()
  {
  }

  /** A reference sum of a list of amounts, first element first. */
  function Sum(xs: seq<int>): int
  {
    if xs == [] then 0 else xs[0] + Sum(xs[1..])
  }

  /**
   * `subtotal`: price times quantity accumulated left to right from 0, as
   * `items.reduce((sum, item) => sum + item.price * item.quantity, 0)` does.
   */
  function Subtotal(items: seq<CartItem>): (r: int)
    ensures items == [] ==> r == 0
    ensures (forall i :: 0 <= i < |items| ==> items[i].Price() >= 0 && items[i].quantity >= 0) ==> r >= 0
    decreases |items|
  {
    if items == [] then 0
    else
      var init := items[..|items| - 1];
      assert forall i :: 0 <= i < |init| ==> init[i] == items[i];
      Subtotal(init) + LineTotal(items[|items| - 1])
  }

  /** `total`: the subtotal plus shipping, which is the subtotal itself. */
  function Total(items: seq<CartItem>): (r: int)
    ensures r == Subtotal(items)
  {
    Subtotal(items) + SHIPPING
  }

  /** What the page shows: the empty-cart view, or the lines with the order summary. */
  datatype CartView =
    | EmptyCart
    | Summary(lineTotals: seq<int>, subtotal: int, shipping: int, total: int)

  /**
   * The cart page: the empty view exactly when there are no lines; otherwise
   * one total per line, and a summary whose subtotal is the sum of those line
   * totals, with free shipping and total equal to subtotal.
   */
  function Render(items: seq<CartItem>): (v: CartView)
    ensures v.EmptyCart? <==> |items| == 0
    ensures v.Summary? ==>
              |v.lineTotals| == |items| &&
              (forall i :: 0 <= i < |items| ==> v.lineTotals[i] == items[i].Price() * items[i].quantity) &&
              v.subtotal == Sum(v.lineTotals) && v.shipping == 0 && v.total == v.subtotal
  {
    if |items| == 0 then EmptyCart
    else
      SubtotalIsSumOfLineTotals(items);
      Summary(Seqs.Map(items, LineTotal), Subtotal(items), SHIPPING, Total(items))
  }

  // ---------------------------------------------------------------------------
  // Properties of the derivation

  lemma {:induction false} SumAppend(a: seq<int>, b: seq<int>)
    ensures Sum(a + b) == Sum(a) + Sum(b)
    decreases |a|
  {
    if a == [] {
      assert a + b == b;
    } else {
      assert (a + b)[1..] == a[1..] + b;
      SumAppend(a[1..], b);
    }
  }

  /** The subtotal of a concatenation is the sum of the two subtotals. */
  lemma {:induction false} SubtotalAppend(a: seq<CartItem>, b: seq<CartItem>)
    ensures Subtotal(a + b) == Subtotal(a) + Subtotal(b)
    decreases |b|
  {
    if b == [] {
      assert a + b == a;
    } else {
      var ab := a + b;
      assert ab[..|ab| - 1] == a + b[..|b| - 1];
      SubtotalAppend(a, b[..|b| - 1]);
    }
  }

  /** The subtotal equals the sum of the per-line totals the page shows. */
  lemma {:induction false} SubtotalIsSumOfLineTotals(items: seq<CartItem>)
    ensures Subtotal(items) == Sum(Seqs.Map(items, LineTotal))
    decreases |items|
  {
    if items != [] {
      var init, last := items[..|items| - 1], items[|items| - 1];
      assert items == init + [last];
      SubtotalIsSumOfLineTotals(init);
      var lines := Seqs.Map(items, LineTotal);
      assert lines == Seqs.Map(init, LineTotal) + [LineTotal(last)];
      SumAppend(Seqs.Map(init, LineTotal), [LineTotal(last)]);
      assert Sum([LineTotal(last)]) == LineTotal(last) by {
        assert [LineTotal(last)][1..] == [];
      }
    }
  }
}
