/** The cart and promo-code state held by the storefront's top-level component. */
module App {
  import opened Products
  import opened Cart

  /** The one promo code the storefront recognises, compared exactly and case-sensitively. */
  const ValidPromoCode: string := "CAFE20"

  /** The flat amount a successful promo code takes off the total. */
  const PromoDiscount: int := 20

  /**
   * The three pieces of state: the cart lines in insertion order, the promo
   * text as typed, and the discount applied so far.
   */
  class CartState {
    var cart: seq<Product>
    var promoCode: string
    var discount: int

    /** The discount only ever holds its initial 0 or the promo amount. */
    ghost predicate Valid()
      reads this
    {
      discount == 0 || discount == PromoDiscount
    }

    /** A session starts with an empty cart, no promo text and no discount. */
    constructor ()
      ensures Valid()
      ensures cart == [] && promoCode == "" && discount == 0
    {
      cart := [];
      promoCode := "";
      discount := 0;
    }

    /** Appends the whole product record; duplicates are kept as separate lines. */
    method AddToCart(product: Product)
      requires Valid()
      modifies this
      ensures Valid()
      ensures cart == old(cart) + [product]
      ensures |cart| == |old(cart)| + 1 && cart[..|old(cart)|] == old(cart)
      ensures promoCode == old(promoCode) && discount == old(discount)
    {
      cart := cart + [product];
    }

    /** Drops every line whose id is `productId`; a no-op when there is none. */
    method RemoveFromCart(productId: int)
      requires Valid()
      modifies this
      ensures Valid()
      ensures cart == Without(old(cart), productId)
      ensures forall k :: 0 <= k < |cart| ==> cart[k].id != productId
      ensures forall p: Product :: p.id != productId ==> multiset(cart)[p] == multiset(old(cart))[p]
      ensures IsSubsequence(cart, old(cart))
      ensures (forall k :: 0 <= k < |old(cart)| ==> old(cart)[k].id != productId) ==> cart == old(cart)
      ensures promoCode == old(promoCode) && discount == old(discount)
    {
      if forall k :: 0 <= k < |cart| ==> cart[k].id != productId {
        WithoutAbsent(cart, productId);
      }
      cart := Without(cart, productId);
    }

    /** Replaces the stored promo text, as the input field's change handler does. */
    method SetPromoCode(text: string)
      requires Valid()
      modifies this
      ensures Valid()
      ensures promoCode == text
      ensures cart == old(cart) && discount == old(discount)
    {
      promoCode := text;
    }

    /**
     * Checks the stored promo text. On an exact match the discount becomes the
     * promo amount whatever it was; otherwise `ok` is false (the user is told)
     * and nothing changes, so an earlier discount stays in force.
     */
    method ApplyPromoCode() returns (ok: bool)
      requires Valid()
      modifies this
      ensures Valid()
      ensures ok <==> old(promoCode) == ValidPromoCode
      ensures discount == if ok then PromoDiscount else old(discount)
      ensures cart == old(cart) && promoCode == old(promoCode)
    {
      if promoCode == ValidPromoCode {
        discount := PromoDiscount;
        ok := true;
      } else {
        ok := false;
      }
    }

    /** The payable total: the line prices summed, minus the discount, possibly negative. */
    method CalculateTotal() returns (total: int)
      requires Valid()
      ensures total + discount == Sum(cart)
      ensures discount == 0 ==> total == Sum(cart)
      ensures total >= Sum(cart) - PromoDiscount
    {
      total := Total(cart, discount);
    }
  }

  /**
   * Adding a Café Latte and an Espresso and applying the promo code gives
   * 50 + 40 - 20.
   */
  method EndToEndTotal() returns (total: int)
    ensures total == 70
  {
    var s := new CartState();
    s.AddToCart(Catalog[0]);
    s.AddToCart(Catalog[2]);
    SumPush([Catalog[0]], Catalog[2]);
    s.SetPromoCode("CAFE20");
    var ok := s.ApplyPromoCode();
    total := s.CalculateTotal();
  }

  /**
   * With the promo applied and the only line removed, the cart is empty, the
   * discount is still 20 and the total is the bare negative discount.
   */
  method NegativeTotalAfterRemoval() returns (lines: seq<Product>, d: int, total: int)
    ensures lines == [] && d == 20
    ensures total == -20
  {
    var s := new CartState();
    s.AddToCart(Catalog[2]);
    s.SetPromoCode("CAFE20");
    var ok := s.ApplyPromoCode();
    s.RemoveFromCart(Catalog[2].id);
    total := s.CalculateTotal();
    lines, d := s.cart, s.discount;
  }

  /**
   * A later wrong code (here the right one in lower case) is rejected and
   * leaves the earlier discount and the cart as they were.
   */
  method RejectedCodeKeepsDiscount() returns (ok: bool, lines: seq<Product>, d: int, total: int)
    ensures !ok && d == 20 && lines == [Catalog[1]]
    ensures total == 40
  {
    var s := new CartState();
    s.AddToCart(Catalog[1]);
    s.SetPromoCode("CAFE20");
    var first := s.ApplyPromoCode();
    s.SetPromoCode("cafe20");
    ok := s.ApplyPromoCode();
    total := s.CalculateTotal();
    lines, d := s.cart, s.discount;
  }

  /** Adding A, B, A and removing A's id leaves only B in the cart. */
  method DuplicateRemoval() returns (lines: seq<Product>)
    ensures lines == [Catalog[1]]
  {
    var latte, cappuccino := Catalog[0], Catalog[1];
    var s := new CartState();
    s.AddToCart(latte);
    s.AddToCart(cappuccino);
    s.AddToCart(latte);
    assert s.cart == [latte, cappuccino, latte];
    WithoutRemovesAllInstances(latte, cappuccino);
    s.RemoveFromCart(latte.id);
    lines := s.cart;
  }
}
