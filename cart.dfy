/** The pure computations behind the cart: the price sum, removal by id and the total. */
module Cart {
  import opened Products

  /** Sum of the line prices, folded from the left as `reduce` with initial value 0 does. */
  function Sum(cart: seq<Product>): nat
  {
    if cart == [] then 0 else Sum(cart[..|cart| - 1]) + cart[|cart| - 1].price
  }

  /** `sub` keeps some of the lines of `s`, in their original relative order. */
  ghost predicate IsSubsequence(sub: seq<Product>, s: seq<Product>)
    decreases |s|
  {
    if s == [] then sub == []
    else (sub != [] && sub[0] == s[0] && IsSubsequence(sub[1..], s[1..]))
         || IsSubsequence(sub, s[1..])
  }

  /**
   * The cart with every line whose id equals `id` filtered out. The result
   * holds no line with that id, keeps every other line with its full
   * multiplicity, and keeps the original relative order.
   */
  function Without(cart: seq<Product>, id: int): (r: seq<Product>)
    ensures forall k :: 0 <= k < |r| ==> r[k].id != id
    ensures forall p :: multiset(r)[p] == if p.id == id then 0 else multiset(cart)[p]
    ensures IsSubsequence(r, cart)
  {
    if cart == [] then []
    else
      assert cart == [cart[0]] + cart[1..];
      if cart[0].id != id then [cart[0]] + Without(cart[1..], id)
      else Without(cart[1..], id)
  }

  /** What the cart view shows as the total: the price sum minus the discount, not clamped at zero. */
  function Total(cart: seq<Product>, discount: int): int
  {
    Sum(cart) - discount
  }

  /** The sum distributes over concatenation. */
  lemma {:induction false} SumAppend(a: seq<Product>, b: seq<Product>)
    ensures Sum(a + b) == Sum(a) + Sum(b)
    decreases |b|
  {
    if b == [] {
      assert a + b == a;
    } else {
      var last := b[|b| - 1];
      var front := b[..|b| - 1];
      assert a + b == (a + front) + [last];
      assert (a + b)[..|a + b| - 1] == a + front;
      SumAppend(a, front);
    }
  }

  /** Appending a line raises the sum by exactly that line's price. */
  lemma {:induction false} SumPush(cart: seq<Product>, p: Product)
    ensures Sum(cart + [p]) == Sum(cart) + p.price
  {
    assert (cart + [p])[..|cart|] == cart;
  }

  /** Taking one line out of the middle of a cart lowers the sum by that line's price. */
  lemma SumRemoveMiddle(left: seq<Product>, x: Product, right: seq<Product>)
    ensures Sum(left + [x] + right) == Sum(left + right) + x.price
  {
    SumAppend(left + [x], right);
    SumPush(left, x);
    SumAppend(left, right);
  }

  /** A cart is the lines before `k`, the line at `k` and the lines after it. */
  lemma SplitAt(b: seq<Product>, k: nat)
    requires k < |b|
    ensures b == b[..k] + [b[k]] + b[k + 1..]
  {
  }

  /**
   * Taking the line at `k` out of a cart takes one copy of it out of the
   * cart's multiset and lowers the sum by its price.
   */
  lemma RemoveAt(b: seq<Product>, k: nat)
    requires k < |b|
    ensures multiset(b[..k] + b[k + 1..]) == multiset(b) - multiset{b[k]}
    ensures Sum(b) == Sum(b[..k] + b[k + 1..]) + b[k].price
  {
    var x, left, right := b[k], b[..k], b[k + 1..];
    SplitAt(b, k);
    SumRemoveMiddle(left, x, right);
    assert multiset(b) == multiset(left + right) + multiset{x};
  }

  /** The sum does not depend on the order in which lines were added. */
  lemma {:induction false} SumPermutation(a: seq<Product>, b: seq<Product>)
    requires multiset(a) == multiset(b)
    ensures Sum(a) == Sum(b)
    decreases |a|
  {
    if a == [] {
      assert |b| == |multiset(b)| == 0;
    } else {
      var n := |a| - 1;
      RemoveAt(a, n);
      assert a[n] in multiset(b);
      var k :| 0 <= k < |b| && b[k] == a[n];
      RemoveAt(b, k);
      SumPermutation(a[..n] + a[n + 1..], b[..k] + b[k + 1..]);
    }
  }

  /** Filtering a cart that holds no line with `id` gives back the same cart. */
  lemma {:induction false} WithoutAbsent(cart: seq<Product>, id: int)
    requires forall k :: 0 <= k < |cart| ==> cart[k].id != id
    ensures Without(cart, id) == cart
  {
    if cart != [] {
      WithoutAbsent(cart[1..], id);
      assert cart == [cart[0]] + cart[1..];
    }
  }

  /** Removing the same id twice is the same as removing it once. */
  lemma WithoutIdempotent(cart: seq<Product>, id: int)
    ensures Without(Without(cart, id), id) == Without(cart, id)
  {
    WithoutAbsent(Without(cart, id), id);
  }

  /** One call removes every duplicate: filtering [A, B, A] by A's id leaves [B]. */
  lemma WithoutRemovesAllInstances(a: Product, b: Product)
    requires a.id != b.id
    ensures Without([a, b, a], a.id) == [b]
  {
  }

  /** Removing lines never raises the sum. */
  lemma {:induction false} SumWithout(cart: seq<Product>, id: int)
    ensures Sum(Without(cart, id)) <= Sum(cart)
    decreases |cart|
  {
    if cart != [] {
      var x := cart[0];
      var rest := cart[1..];
      assert cart == [x] + rest;
      SumWithout(rest, id);
      SumAppend([x], rest);
      if x.id != id {
        SumAppend([x], Without(rest, id));
      }
    }
  }

  /** With no discount the total is the plain sum of the line prices. */
  lemma TotalWithoutDiscount(cart: seq<Product>)
    ensures Total(cart, 0) == Sum(cart)
  {
  }

  /** Adding a product raises the total by exactly its price, whatever the discount. */
  lemma TotalAfterAdd(cart: seq<Product>, discount: int, p: Product)
    ensures Total(cart + [p], discount) == Total(cart, discount) + p.price
  {
    SumPush(cart, p);
  }

  /** The total is the same for every order of the same lines. */
  lemma TotalPermutation(a: seq<Product>, b: seq<Product>, discount: int)
    requires multiset(a) == multiset(b)
    ensures Total(a, discount) == Total(b, discount)
  {
    SumPermutation(a, b);
  }

  /** The total is not clamped: it is negative exactly when the discount exceeds the sum. */
  lemma TotalNotClamped(cart: seq<Product>, discount: int)
    ensures Total(cart, discount) < 0 <==> discount > Sum(cart)
    ensures Total([], discount) == -discount
  {
  }
}
