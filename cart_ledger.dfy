/**
 * The cart reducers of the app: merge-on-add, clamped quantity updates,
 * removal by id, and the item count shown on the header badge. Each reducer
 * maps the previous cart to the next one, as the `setCart(prev => ...)`
 * updaters do.
 */
module CartLedger {
  import opened Options
  import opened Types
  import Seqs

  /** Some line of the cart is for product `id`. */
  ghost predicate HasId(cart: seq<CartItem>, id: string)
  {
    exists i :: 0 <= i < |cart| && cart[i].Id() == id
  }

  /** No two lines of the cart are for the same product. */
  ghost predicate UniqueIds(cart: seq<CartItem>)
  {
    forall i, j :: 0 <= i < j < |cart| ==> cart[i].Id() != cart[j].Id()
  }

  /** Every line holds at least one unit. */
  ghost predicate QuantitiesPositive(cart: seq<CartItem>)
  {
    forall i :: 0 <= i < |cart| ==> cart[i].quantity >= 1
  }

  /** The invariant every reachable cart keeps. */
  ghost predicate Valid(cart: seq<CartItem>)
  {
    UniqueIds(cart) && QuantitiesPositive(cart)
  }

  /** The larger of two integers, as `Math.max` gives it. */
  function Max(a: int, b: int): (r: int)
    ensures r >= a && r >= b
    ensures r == a || r == b
  {
    if a >= b then a else b
  }

  /** The first line for product `id`, if any: `cart.find(item => item.id === id)`. */
  function Find(cart: seq<CartItem>, id: string): (r: Option<CartItem>)
    ensures r.Some? <==> HasId(cart, id)
    ensures r.Some? ==> r.value in cart && r.value.Id() == id
  {
    Seqs.FindFirst(cart, (item: CartItem) => item.Id() == id)
  }

  /** The line `item` with one unit more when it is for product `id`. */
  function BumpIfMatching(item: CartItem, id: string): (r: CartItem)
    ensures r.wallpaper == item.wallpaper
    ensures r.quantity == item.quantity + (if item.Id() == id then 1 else 0)
  {
    if item.Id() == id then item.(quantity := item.quantity + 1) else item
  }

  /**
   * `addToCart`: a product already in the cart has its line's quantity raised
   * by one (that line keeps its own fields and position); any other product is
   * appended as a new line of quantity 1.
   */
  function AddToCart(cart: seq<CartItem>, w: Wallpaper): (r: seq<CartItem>)
    ensures HasId(cart, w.id) ==>
              |r| == |cart| &&
              forall i :: 0 <= i < |cart| ==>
                r[i] == if cart[i].Id() == w.id then cart[i].(quantity := cart[i].quantity + 1) else cart[i]
    ensures !HasId(cart, w.id) ==> r == cart + [CartItem(w, 1)]
  {
    if Find(cart, w.id).Some? then Seqs.Map(cart, (item: CartItem) => BumpIfMatching(item, w.id))
    else cart + [CartItem(w, 1)]
  }

  /** The line `item` with `delta` added to its quantity, never going below 1, when it is for `id`. */
  function ApplyDelta(item: CartItem, id: string, delta: int): (r: CartItem)
    ensures r.wallpaper == item.wallpaper
    ensures item.Id() != id ==> r == item
    ensures item.Id() == id ==>
              r.quantity >= 1 && r.quantity >= item.quantity + delta &&
              (r.quantity == 1 || r.quantity == item.quantity + delta)
  {
    if item.Id() == id then item.(quantity := Max(1, item.quantity + delta)) else item
  }

  /**
   * `updateCartQuantity`: the line for `id` gets quantity `max(1, q + delta)`;
   * every other line, and the order, stay as they were.
   */
  function UpdateQuantity(cart: seq<CartItem>, id: string, delta: int): (r: seq<CartItem>)
    ensures |r| == |cart|
    ensures forall i :: 0 <= i < |cart| && cart[i].Id() != id ==> r[i] == cart[i]
    ensures forall i :: 0 <= i < |cart| && cart[i].Id() == id ==>
              r[i].wallpaper == cart[i].wallpaper && r[i].quantity >= 1 &&
              r[i].quantity >= cart[i].quantity + delta &&
              (r[i].quantity == 1 || r[i].quantity == cart[i].quantity + delta)
    ensures !HasId(cart, id) ==> r == cart
  {
    Seqs.Map(cart, (item: CartItem) => ApplyDelta(item, id, delta))
  }

  /** `removeFromCart`: every line for `id` is dropped; the others keep their order. */
  function Remove(cart: seq<CartItem>, id: string): (r: seq<CartItem>)
    ensures !HasId(r, id)
    ensures Seqs.IsSubsequence(r, cart)
    ensures forall i :: 0 <= i < |cart| && cart[i].Id() != id ==> cart[i] in r
  {
    Seqs.Filter(cart, (item: CartItem) => item.Id() != id)
  }

  /**
   * The header's `cartCount`: the quantities summed left to right, as
   * `cart.reduce((sum, item) => sum + item.quantity, 0)` does.
   */
  function CartCount(cart: seq<CartItem>): (n: int)
    ensures QuantitiesPositive(cart) ==> n >= |cart|
    ensures QuantitiesPositive(cart) ==> (n == 0 <==> cart == [])
    decreases |cart|
  {
    if cart == [] then 0
    else
      assert QuantitiesPositive(cart) ==> QuantitiesPositive(cart[..|cart| - 1]);
      CartCount(cart[..|cart| - 1]) + cart[|cart| - 1].quantity
  }

  /** `n` successive `addToCart(w)` calls starting from `cart`; zero calls leave it as it was. */
  function AddRepeatedly(cart: seq<CartItem>, w: Wallpaper, n: nat): (r: seq<CartItem>)
    ensures n == 0 ==> r == cart
  {
    if n == 0 then cart else AddToCart(AddRepeatedly(cart, w, n - 1), w)
  }

  /**
   * After at least one add the product has a line; at most one line is ever
   * added, and the existing lines keep their product ids and positions.
   */
  lemma {:induction false} AddRepeatedlyShape(cart: seq<CartItem>, w: Wallpaper, n: nat)
    ensures n >= 1 ==> HasId(AddRepeatedly(cart, w, n), w.id)
    ensures |cart| <= |AddRepeatedly(cart, w, n)| <= |cart| + 1
    ensures forall i :: 0 <= i < |cart| ==> AddRepeatedly(cart, w, n)[i].Id() == cart[i].Id()
  {
    if n > 0 {
      AddRepeatedlyShape(cart, w, n - 1);
      AddLeavesId(AddRepeatedly(cart, w, n - 1), w);
    }
  }

  /** After an add the product has a line, and every old line keeps its product's id. */
  lemma AddLeavesId(cart: seq<CartItem>, w: Wallpaper)
    ensures HasId(AddToCart(cart, w), w.id)
    ensures forall i :: 0 <= i < |cart| ==> AddToCart(cart, w)[i].Id() == cart[i].Id()
  {
    var r := AddToCart(cart, w);
    if HasId(cart, w.id) {
      var k :| 0 <= k < |cart| && cart[k].Id() == w.id;
      assert r[k].Id() == w.id;
    } else {
      assert r[|cart|].Id() == w.id;
    }
  }

  // ---------------------------------------------------------------------------
  // Properties of the reducers

  /**
   * With unique ids, adding a product that is present changes exactly its
   * line, by one unit; length, order and all other lines are unchanged.
   */
  lemma AddExistingBumpsOnlyThatLine(cart: seq<CartItem>, w: Wallpaper, k: nat)
    requires UniqueIds(cart)
    requires k < |cart| && cart[k].Id() == w.id
    ensures AddToCart(cart, w) == cart[k := cart[k].(quantity := cart[k].quantity + 1)]
  {
    var r := AddToCart(cart, w);
    var s := cart[k := cart[k].(quantity := cart[k].quantity + 1)];
    assert |r| == |s|;
    forall i | 0 <= i < |r| ensures r[i] == s[i] {
      if i != k {
        assert cart[i].Id() != w.id;
      }
    }
  }

  /** Adding an absent product appends one line of quantity 1 and keeps the rest. */
  lemma AddAbsentAppends(cart: seq<CartItem>, w: Wallpaper)
    requires !HasId(cart, w.id)
    ensures |AddToCart(cart, w)| == |cart| + 1
    ensures AddToCart(cart, w)[..|cart|] == cart
    ensures AddToCart(cart, w)[|cart|] == CartItem(w, 1)
  {
    var r := AddToCart(cart, w);
    assert r == cart + [CartItem(w, 1)];
  }

  /** Raising the quantity of a present product keeps the ids and keeps every quantity positive. */
  lemma AddExistingPreservesValid(cart: seq<CartItem>, w: Wallpaper)
    requires Valid(cart) && HasId(cart, w.id)
    ensures Valid(AddToCart(cart, w))
    ensures HasId(AddToCart(cart, w), w.id)
  {
    var r := AddToCart(cart, w);
    assert forall i :: 0 <= i < |cart| ==> r[i].Id() == cart[i].Id();
    var k :| 0 <= k < |cart| && cart[k].Id() == w.id;
    assert r[k].Id() == w.id;
  }

  /** Appending a line for an absent product keeps the ids unique. */
  lemma AddAbsentPreservesValid(cart: seq<CartItem>, w: Wallpaper)
    requires Valid(cart) && !HasId(cart, w.id)
    ensures Valid(AddToCart(cart, w))
    ensures HasId(AddToCart(cart, w), w.id)
  {
    var r := AddToCart(cart, w);
    assert r == cart + [CartItem(w, 1)];
    assert r[|cart|].Id() == w.id;
    forall i, j | 0 <= i < j < |r| ensures r[i].Id() != r[j].Id() {
      if j == |cart| {
        assert r[i] == cart[i];
      }
    }
  }

  /** Adding keeps ids unique and quantities positive. */
  lemma AddPreservesValid(cart: seq<CartItem>, w: Wallpaper)
    requires Valid(cart)
    ensures Valid(AddToCart(cart, w))
    ensures HasId(AddToCart(cart, w), w.id)
  {
    if HasId(cart, w.id) {
      AddExistingPreservesValid(cart, w);
    } else {
      AddAbsentPreservesValid(cart, w);
    }
  }

  /** Updating a quantity keeps ids unique and quantities positive, whatever the delta. */
  lemma UpdatePreservesValid(cart: seq<CartItem>, id: string, delta: int)
    requires Valid(cart)
    ensures Valid(UpdateQuantity(cart, id, delta))
  {
    var r := UpdateQuantity(cart, id, delta);
    assert forall i :: 0 <= i < |cart| ==> r[i].Id() == cart[i].Id();
  }

  /** A subsequence of a cart without repeated ids has no repeated ids either. */
  lemma {:induction false} SubsequenceKeepsUniqueIds(a: seq<CartItem>, b: seq<CartItem>)
    requires Seqs.IsSubsequence(a, b) && UniqueIds(b)
    ensures UniqueIds(a)
    decreases |b|
  {
    if a == [] {
    } else if a[0] == b[0] && Seqs.IsSubsequence(a[1..], b[1..]) {
      SubsequenceKeepsUniqueIds(a[1..], b[1..]);
      Seqs.SubsequenceElements(a[1..], b[1..]);
      forall i, j | 0 <= i < j < |a| ensures a[i].Id() != a[j].Id() {
        if i == 0 {
          assert a[j] == a[1..][j - 1];
          assert a[j] in a[1..];
          assert a[j] in b[1..];
          var m :| 0 <= m < |b[1..]| && b[1..][m] == a[j];
          assert b[m + 1] == a[j];
        } else {
          assert a[i] == a[1..][i - 1] && a[j] == a[1..][j - 1];
        }
      }
    } else {
      assert UniqueIds(b[1..]) by {
        forall i, j | 0 <= i < j < |b[1..]| ensures b[1..][i].Id() != b[1..][j].Id() {
          assert b[1..][i] == b[i + 1] && b[1..][j] == b[j + 1];
        }
      }
      SubsequenceKeepsUniqueIds(a, b[1..]);
    }
  }

  /** Removing an id that has no line leaves the cart as it was. */
  lemma RemoveAbsentIsNoOp(cart: seq<CartItem>, id: string)
    requires !HasId(cart, id)
    ensures Remove(cart, id) == cart
  {
    Seqs.FilterAll(cart, (item: CartItem) => item.Id() != id);
  }

  /** Removing keeps ids unique and quantities positive. */
  lemma RemovePreservesValid(cart: seq<CartItem>, id: string)
    requires Valid(cart)
    ensures Valid(Remove(cart, id))
  {
    var r := Remove(cart, id);
    SubsequenceKeepsUniqueIds(r, cart);
    Seqs.SubsequenceElements(r, cart);
    forall i | 0 <= i < |r| ensures r[i].quantity >= 1 {
      assert r[i] in cart;
    }
  }

  /** From an empty cart, `n >= 1` adds of one product give a single line of quantity `n`. */
  lemma {:induction false} AddRepeatedlyFromEmpty(w: Wallpaper, n: nat)
    requires n >= 1
    ensures AddRepeatedly([], w, n) == [CartItem(w, n)]
  {
    if n == 1 {
      AddToEmpty(w);
    } else {
      AddRepeatedlyFromEmpty(w, n - 1);
      AddToSingleLine(w, n - 1);
    }
  }

  /** Adding to the empty cart gives one line of quantity 1. */
  lemma AddToEmpty(w: Wallpaper)
    ensures AddToCart([], w) == [CartItem(w, 1)]
  {
    assert !HasId([], w.id);
  }

  /** Repeated adds keep the invariant. */
  lemma {:induction false} AddRepeatedlyKeepsValid(cart: seq<CartItem>, w: Wallpaper, n: nat)
    requires Valid(cart)
    ensures Valid(AddRepeatedly(cart, w, n))
  {
    if n != 0 {
      AddRepeatedlyKeepsValid(cart, w, n - 1);
      AddPreservesValid(AddRepeatedly(cart, w, n - 1), w);
    }
  }

  /** Adding the product of a one-line cart raises that line by one unit. */
  lemma AddToSingleLine(w: Wallpaper, q: int)
    ensures AddToCart([CartItem(w, q)], w) == [CartItem(w, q + 1)]
  {
    var cart := [CartItem(w, q)];
    assert cart[0].Id() == w.id;
    AddExistingBumpsOnlyThatLine(cart, w, 0);
  }

  /** The count of a concatenation is the sum of the counts. */
  lemma {:induction false} CartCountAppend(a: seq<CartItem>, b: seq<CartItem>)
    ensures CartCount(a + b) == CartCount(a) + CartCount(b)
    decreases |b|
  {
    if b != [] {
      var ab := a + b;
      assert ab[..|ab| - 1] == a + b[..|b| - 1];
      CartCountAppend(a, b[..|b| - 1]);
    } else {
      assert a + b == a;
    }
  }

  /** Changing one line's quantity changes the count by the same amount. */
  lemma {:induction false} CartCountUpdateAt(cart: seq<CartItem>, k: nat, x: CartItem)
    requires k < |cart|
    ensures CartCount(cart[k := x]) == CartCount(cart) - cart[k].quantity + x.quantity
  {
    var pre, post := cart[..k], cart[k + 1..];
    assert cart == pre + [cart[k]] + post;
    assert cart[k := x] == pre + [x] + post;
    CartCountAppend(pre + [cart[k]], post);
    CartCountAppend(pre + [x], post);
    CartCountAppend(pre, [cart[k]]);
    CartCountAppend(pre, [x]);
    assert CartCount([x]) == x.quantity by {
      assert [x][..0] == [];
    }
    assert CartCount([cart[k]]) == cart[k].quantity by {
      assert [cart[k]][..0] == [];
    }
  }

  /** Adding a product raises the badge count by exactly one. */
  lemma CartCountAfterAdd(cart: seq<CartItem>, w: Wallpaper)
    requires UniqueIds(cart)
    ensures CartCount(AddToCart(cart, w)) == CartCount(cart) + 1
  {
    if HasId(cart, w.id) {
      var k :| 0 <= k < |cart| && cart[k].Id() == w.id;
      AddExistingBumpsOnlyThatLine(cart, w, k);
      CartCountUpdateAt(cart, k, cart[k].(quantity := cart[k].quantity + 1));
    } else {
      CartCountAppend(cart, [CartItem(w, 1)]);
      assert [CartItem(w, 1)][..0] == [];
    }
  }
}
