/**
 * The cart logic of the two point-of-sale pages. The admin register and the
 * helper scanner carry the same `addToCart`, `updateQuantity`,
 * `removeFromCart`, `total` and product search code; it is defined once here
 * and used by both page classes.
 */
module Cart {
  import opened Options
  import opened Inventory
  import Receipts

  /** A product as the page lists it. */
  datatype Product = Product(id: ProductId, code: string, name: string, price: int)

  /** A cart entry: the product's fields spread in, plus the units in the cart. */
  datatype CartItem = CartItem(product: Product, cartQuantity: int)

  predicate HasId(cart: seq<CartItem>, id: ProductId)
  {
    exists i :: 0 <= i < |cart| && cart[i].product.id == id
  }

  /** Every product appears at most once, with at least one unit. */
  predicate WellFormed(cart: seq<CartItem>)
  {
    && (forall i, j :: 0 <= i < j < |cart| ==> cart[i].product.id != cart[j].product.id)
    && (forall i :: 0 <= i < |cart| ==> cart[i].cartQuantity >= 1)
  }

  // ---------------------------------------------------------------------------
  // total

  /** `cart.reduce((sum, item) => sum + item.price * item.cartQuantity, 0)`. */
  /** No entry has a negative price or quantity. */
  predicate NonNegative(cart: seq<CartItem>)
  {
    forall i :: 0 <= i < |cart| ==> cart[i].product.price >= 0 && cart[i].cartQuantity >= 0
  }

  function Total(cart: seq<CartItem>): (r: int)
    ensures NonNegative(cart) ==> r >= 0
    decreases |cart|
  {
    if cart == [] then 0 else cart[0].product.price * cart[0].cartQuantity + Total(cart[1..])
  }

  /** The total of a cart is the sum of the totals of its parts. */
  lemma {:induction false} TotalAppend(a: seq<CartItem>, b: seq<CartItem>)
    ensures Total(a + b) == Total(a) + Total(b)
    decreases |a|
  {
    if a != [] {
      assert (a + b)[0] == a[0];
      assert (a + b)[1..] == a[1..] + b;
      TotalAppend(a[1..], b);
    } else {
      assert a + b == b;
    }
  }

  // ---------------------------------------------------------------------------
  // addToCart

  /** The `map` that adds one unit to every entry of product `id`. */
  function Bump(cart: seq<CartItem>, id: ProductId): (r: seq<CartItem>)
    ensures |r| == |cart|
    ensures forall i :: 0 <= i < |cart| ==> r[i].product == cart[i].product
    decreases |cart|
  {
    if cart == [] then []
    else
      [if cart[0].product.id == id then cart[0].(cartQuantity := cart[0].cartQuantity + 1) else cart[0]]
      + Bump(cart[1..], id)
  }

  /** An existing entry gains one unit; a new product is appended with one unit. */
  function AddToCart(cart: seq<CartItem>, p: Product): (r: seq<CartItem>)
    ensures HasId(r, p.id)
    ensures |r| == if HasId(cart, p.id) then |cart| else |cart| + 1
  {
    if HasId(cart, p.id) then
      var r := Bump(cart, p.id);
      var k :| 0 <= k < |cart| && cart[k].product.id == p.id;
      assert r[k].product.id == p.id;
      r
    else
      var r := cart + [CartItem(p, 1)];
      assert r[|cart|].product.id == p.id;
      r
  }

  lemma {:induction false} BumpSpec(cart: seq<CartItem>, id: ProductId)
    ensures |Bump(cart, id)| == |cart|
    ensures forall i :: 0 <= i < |cart| ==>
      Bump(cart, id)[i] == if cart[i].product.id == id
                           then cart[i].(cartQuantity := cart[i].cartQuantity + 1) else cart[i]
    decreases |cart|
  {
    if cart != [] {
      BumpSpec(cart[1..], id);
    }
  }

  /**
   * Adding a product already in the cart adds one unit to that entry only and
   * keeps the length; adding a new one appends it with one unit.
   */
  lemma AddToCartSpec(cart: seq<CartItem>, p: Product)
    ensures HasId(cart, p.id) ==>
      && |AddToCart(cart, p)| == |cart|
      && forall i :: 0 <= i < |cart| ==>
           AddToCart(cart, p)[i] == if cart[i].product.id == p.id
                                    then cart[i].(cartQuantity := cart[i].cartQuantity + 1) else cart[i]
    ensures !HasId(cart, p.id) ==> AddToCart(cart, p) == cart + [CartItem(p, 1)]
  {
    BumpSpec(cart, p.id);
  }

  /** Product ids stay unique and quantities at least one; the product is then in the cart. */
  lemma AddToCartKeepsWellFormed(cart: seq<CartItem>, p: Product)
    requires WellFormed(cart)
    ensures WellFormed(AddToCart(cart, p)) && HasId(AddToCart(cart, p), p.id)
  {
    AddToCartSpec(cart, p);
    var r := AddToCart(cart, p);
    if !HasId(cart, p.id) {
      assert r[|cart|].product.id == p.id;
    } else {
      var k :| 0 <= k < |cart| && cart[k].product.id == p.id;
      assert r[k].product.id == p.id;
    }
  }

  /** The summed price of the entries of product `id`. */
  function PriceSum(cart: seq<CartItem>, id: ProductId): (r: int)
    decreases |cart|
  {
    if cart == [] then 0
    else (if cart[0].product.id == id then cart[0].product.price else 0) + PriceSum(cart[1..], id)
  }

  lemma {:induction false} BumpTotal(cart: seq<CartItem>, id: ProductId)
    ensures Total(Bump(cart, id)) == Total(cart) + PriceSum(cart, id)
    decreases |cart|
  {
    if cart != [] {
      var head := if cart[0].product.id == id then cart[0].(cartQuantity := cart[0].cartQuantity + 1) else cart[0];
      var rest := Bump(cart[1..], id);
      var price, q := cart[0].product.price, cart[0].cartQuantity;
      assert Total(Bump(cart, id)) == head.product.price * head.cartQuantity + Total(rest) by {
        assert Bump(cart, id) == [head] + rest;
        assert ([head] + rest)[0] == head && ([head] + rest)[1..] == rest;
      }
      assert head.product.price * head.cartQuantity == price * q + (if cart[0].product.id == id then price else 0) by {
        assert price * (q + 1) == price * q + price;
      }
      BumpTotal(cart[1..], id);
    }
  }

  lemma {:induction false} PriceSumOfUnique(cart: seq<CartItem>, k: nat)
    requires WellFormed(cart) && k < |cart|
    ensures PriceSum(cart, cart[k].product.id) == cart[k].product.price
    decreases |cart|
  {
    var id := cart[k].product.id;
    if k == 0 {
      PriceSumAbsent(cart[1..], id);
    } else {
      assert cart[0].product.id != id;
      PriceSumOfUnique(cart[1..], k - 1);
    }
  }

  lemma {:induction false} PriceSumAbsent(cart: seq<CartItem>, id: ProductId)
    requires forall i :: 0 <= i < |cart| ==> cart[i].product.id != id
    ensures PriceSum(cart, id) == 0
    decreases |cart|
  {
    if cart != [] {
      PriceSumAbsent(cart[1..], id);
    }
  }

  /** Adding a product already in the cart raises the total by that entry's unit price. */
  lemma AddToCartTotalExisting(cart: seq<CartItem>, p: Product, k: nat)
    requires WellFormed(cart) && k < |cart| && cart[k].product.id == p.id
    ensures Total(AddToCart(cart, p)) == Total(cart) + cart[k].product.price
  {
    assert AddToCart(cart, p) == Bump(cart, p.id);
    BumpTotal(cart, p.id);
    PriceSumOfUnique(cart, k);
  }

  /** Adding a product not in the cart raises the total by the product's price. */
  lemma AddToCartTotalNew(cart: seq<CartItem>, p: Product)
    requires !HasId(cart, p.id)
    ensures Total(AddToCart(cart, p)) == Total(cart) + p.price
  {
    var entry := CartItem(p, 1);
    assert AddToCart(cart, p) == cart + [entry];
    TotalAppend(cart, [entry]);
    assert [entry][1..] == [];
    assert Total([entry]) == p.price * 1 + Total([]);
  }

  // ---------------------------------------------------------------------------
  // updateQuantity

  function Max(a: int, b: int): (r: int)
    ensures r >= a && r >= b && (r == a || r == b)
  {
    if a >= b then a else b
  }

  /** The `map` that sets the entries of product `id` to `Math.max(1, cartQuantity + delta)`. */
  function UpdateQuantity(cart: seq<CartItem>, id: ProductId, delta: int): (r: seq<CartItem>)
    ensures |r| == |cart|
    decreases |cart|
  {
    if cart == [] then []
    else
      [if cart[0].product.id == id then cart[0].(cartQuantity := Max(1, cart[0].cartQuantity + delta)) else cart[0]]
      + UpdateQuantity(cart[1..], id, delta)
  }

  /** Only the entries of product `id` change, to at least one unit; the rest are kept as they were. */
  lemma {:induction false} UpdateQuantitySpec(cart: seq<CartItem>, id: ProductId, delta: int)
    ensures |UpdateQuantity(cart, id, delta)| == |cart|
    ensures forall i :: 0 <= i < |cart| ==>
      && UpdateQuantity(cart, id, delta)[i].product == cart[i].product
      && UpdateQuantity(cart, id, delta)[i].cartQuantity
           == if cart[i].product.id == id then Max(1, cart[i].cartQuantity + delta) else cart[i].cartQuantity
    ensures forall i :: 0 <= i < |cart| && cart[i].product.id == id ==> UpdateQuantity(cart, id, delta)[i].cartQuantity >= 1
    decreases |cart|
  {
    if cart != [] {
      UpdateQuantitySpec(cart[1..], id, delta);
    }
  }

  lemma UpdateQuantityKeepsWellFormed(cart: seq<CartItem>, id: ProductId, delta: int)
    requires WellFormed(cart)
    ensures WellFormed(UpdateQuantity(cart, id, delta))
  {
    UpdateQuantitySpec(cart, id, delta);
  }

  // ---------------------------------------------------------------------------
  // removeFromCart

  /** The `filter` that drops every entry of product `id`. */
  function RemoveFromCart(cart: seq<CartItem>, id: ProductId): (r: seq<CartItem>)
    ensures |r| <= |cart|
    ensures forall i :: 0 <= i < |r| ==> r[i].product.id != id
    decreases |cart|
  {
    if cart == [] then []
    else (if cart[0].product.id == id then [] else [cart[0]]) + RemoveFromCart(cart[1..], id)
  }

  /** No entry of `id` is left, every other entry is kept, nothing new appears. */
  lemma {:induction false} RemoveFromCartSpec(cart: seq<CartItem>, id: ProductId)
    ensures !HasId(RemoveFromCart(cart, id), id)
    ensures forall x :: x in RemoveFromCart(cart, id) <==> x in cart && x.product.id != id
    ensures !HasId(cart, id) ==> RemoveFromCart(cart, id) == cart
    decreases |cart|
  {
    if cart != [] {
      RemoveFromCartSpec(cart[1..], id);
      var r := RemoveFromCart(cart, id);
      var rest := RemoveFromCart(cart[1..], id);
      assert forall i :: 0 <= i < |cart[1..]| ==> cart[1..][i] == cart[i + 1];
      if !HasId(cart, id) {
        assert cart == [cart[0]] + cart[1..];
      }
      assert forall x :: x in cart <==> x == cart[0] || x in cart[1..];
    }
  }

  /** Removal keeps the remaining entries in their original order: it works piecewise. */
  lemma {:induction false} RemoveFromCartConcat(a: seq<CartItem>, b: seq<CartItem>, id: ProductId)
    ensures RemoveFromCart(a + b, id) == RemoveFromCart(a, id) + RemoveFromCart(b, id)
    decreases |a|
  {
    if a != [] {
      var head := if a[0].product.id == id then [] else [a[0]];
      assert (a + b)[0] == a[0];
      assert (a + b)[1..] == a[1..] + b;
      assert RemoveFromCart(a + b, id) == head + RemoveFromCart(a[1..] + b, id);
      RemoveFromCartConcat(a[1..], b, id);
      assert head + (RemoveFromCart(a[1..], id) + RemoveFromCart(b, id))
          == (head + RemoveFromCart(a[1..], id)) + RemoveFromCart(b, id);
    } else {
      assert a + b == b;
    }
  }

  /** The tail of a well-formed cart is well formed and does not hold the head's product. */
  lemma WellFormedTail(cart: seq<CartItem>)
    requires WellFormed(cart) && cart != []
    ensures WellFormed(cart[1..]) && !HasId(cart[1..], cart[0].product.id)
  {
    assert forall i :: 0 <= i < |cart[1..]| ==> cart[1..][i] == cart[i + 1];
  }

  lemma ConsWellFormed(head: CartItem, rest: seq<CartItem>)
    requires WellFormed(rest) && head.cartQuantity >= 1 && !HasId(rest, head.product.id)
    ensures WellFormed([head] + rest)
  {
    assert forall i :: 0 < i <= |rest| ==> ([head] + rest)[i] == rest[i - 1];
  }

  lemma {:induction false} RemoveFromCartKeepsWellFormed(cart: seq<CartItem>, id: ProductId)
    requires WellFormed(cart)
    ensures WellFormed(RemoveFromCart(cart, id))
    decreases |cart|
  {
    if cart != [] {
      WellFormedTail(cart);
      RemoveFromCartKeepsWellFormed(cart[1..], id);
      var rest := RemoveFromCart(cart[1..], id);
      if cart[0].product.id != id {
        RemoveFromCartSpec(cart[1..], id);
        ConsWellFormed(cart[0], rest);
      }
    }
  }

  /** Removing a product present once lowers the total by exactly that entry's amount. */
  lemma {:induction false} RemoveFromCartTotal(cart: seq<CartItem>, k: nat)
    requires WellFormed(cart) && k < |cart|
    ensures Total(RemoveFromCart(cart, cart[k].product.id))
      == Total(cart) - cart[k].product.price * cart[k].cartQuantity
    decreases |cart|
  {
    var id := cart[k].product.id;
    if k == 0 {
      WellFormedTail(cart);
      RemoveFromCartSpec(cart[1..], id);
      assert RemoveFromCart(cart, id) == [] + RemoveFromCart(cart[1..], id) == cart[1..];
    } else {
      assert cart[0].product.id != id;
      WellFormedTail(cart);
      assert cart[1..][k - 1] == cart[k];
      RemoveFromCartTotal(cart[1..], k - 1);
      var rest := RemoveFromCart(cart[1..], id);
      assert RemoveFromCart(cart, id) == [cart[0]] + rest;
      assert ([cart[0]] + rest)[1..] == rest;
    }
  }

  // ---------------------------------------------------------------------------
  // The receipt request both pages post.

  /** `cart.map(item => ({product: item._id, name, code, price, quantity: item.cartQuantity}))`. */
  function ToLines(cart: seq<CartItem>): (r: seq<LineItem>)
    ensures |r| == |cart|
    decreases |cart|
  {
    if cart == [] then []
    else
      [LineItem(cart[0].product.id, cart[0].product.name, cart[0].product.code, cart[0].product.price, cart[0].cartQuantity)]
      + ToLines(cart[1..])
  }

  /** One line per cart entry, in order, carrying the entry's product and quantity. */
  lemma {:induction false} ToLinesSpec(cart: seq<CartItem>)
    ensures |ToLines(cart)| == |cart|
    ensures forall i :: 0 <= i < |cart| ==>
      ToLines(cart)[i] == LineItem(cart[i].product.id, cart[i].product.name, cart[i].product.code,
                                   cart[i].product.price, cart[i].cartQuantity)
    decreases |cart|
  {
    if cart != [] {
      ToLinesSpec(cart[1..]);
    }
  }

  /**
   * A well-formed cart yields lines with distinct products, so the server's
   * per-line check on them is as strong as a summed one.
   */
  lemma WellFormedLinesAreDistinct(cart: seq<CartItem>)
    requires WellFormed(cart)
    ensures DistinctProducts(ToLines(cart))
    ensures forall i :: 0 <= i < |ToLines(cart)| ==> ToLines(cart)[i].quantity >= 1
  {
    ToLinesSpec(cart);
  }

  /**
   * A sale posted from a well-formed cart that passes the server's per-line
   * check cannot drive a non-negative stock below zero.
   */
  lemma CartCheckoutKeepsStockNonNegative(stock: Stock, cart: seq<CartItem>)
    requires WellFormed(cart)
    requires FirstShortage(stock, ToLines(cart)).None?
    requires forall p :: p in stock ==> stock[p] >= 0
    ensures forall p :: p in stock ==> ApplyLines(stock, ToLines(cart), false)[p] >= 0
  {
    WellFormedLinesAreDistinct(cart);
    DistinctLinesStayNonNegative(stock, ToLines(cart));
  }

  /** The body of `POST /receipts` as a page sends it; absent fields are `None`. */
  datatype ReceiptRequest = ReceiptRequest(
    items: seq<LineItem>,
    total: int,
    paymentMethod: Option<Receipts.PaymentMethod>,
    isReturn: Option<bool>)

  // ---------------------------------------------------------------------------
  // handleSearch and the exact code lookup.

  /** `toLowerCase` on one character, for the letters A to Z. */
  function LowerChar(c: char): (r: char)
    ensures !('A' <= r <= 'Z')
    ensures !('A' <= c <= 'Z') ==> r == c
  {
    if 'A' <= c <= 'Z' then ((c as int) + 32) as char else c
  }

  function Lower(s: string): (r: string)
    ensures |r| == |s|
    ensures forall i :: 0 <= i < |s| ==> r[i] == LowerChar(s[i])
    decreases |s|
  {
    if s == [] then [] else [LowerChar(s[0])] + Lower(s[1..])
  }

  predicate IsPrefix(q: string, s: string)
  {
    |q| <= |s| && s[..|q|] == q
  }

  /** `s.includes(q)`. */
  predicate Contains(s: string, q: string)
    ensures Contains(s, q) ==> |q| <= |s|
    ensures q == [] ==> Contains(s, q)
    decreases |s|
  {
    IsPrefix(q, s) || (|s| > 0 && Contains(s[1..], q))
  }

  /** `Contains` finds `q` exactly when it occurs at some position of `s`. */
  lemma {:induction false} ContainsIff(s: string, q: string)
    ensures Contains(s, q) <==> exists i :: 0 <= i <= |s| && IsPrefix(q, s[i..])
    decreases |s|
  {
    assert s[0..] == s;
    if |s| > 0 {
      ContainsIff(s[1..], q);
      if Contains(s, q) && !IsPrefix(q, s) {
        var i :| 0 <= i <= |s[1..]| && IsPrefix(q, s[1..][i..]);
        assert s[1..][i..] == s[i + 1..];
      }
      if exists i :: 0 <= i <= |s| && IsPrefix(q, s[i..]) {
        var i :| 0 <= i <= |s| && IsPrefix(q, s[i..]);
        if i > 0 {
          assert s[1..][i - 1..] == s[i..];
        }
      }
    }
  }

  /** The search filter: name or code contains the query, ignoring case. */
  predicate Matches(p: Product, query: string)
    ensures query == [] ==> Matches(p, query)
  {
    Contains(Lower(p.name), Lower(query)) || Contains(Lower(p.code), Lower(query))
  }

  function Filter(products: seq<Product>, query: string): (r: seq<Product>)
    ensures |r| <= |products|
    ensures forall i :: 0 <= i < |r| ==> Matches(r[i], query)
    decreases |products|
  {
    if products == [] then []
    else (if Matches(products[0], query) then [products[0]] else []) + Filter(products[1..], query)
  }

  /** `handleSearch`'s result list: nothing for an empty query, else the matching products. */
  function Search(products: seq<Product>, query: string): (r: seq<Product>)
    ensures |query| == 0 ==> r == []
    ensures |query| > 0 ==> forall p :: p in r <==> p in products && Matches(p, query)
  {
    FilterSpec(products, query);
    if |query| > 0 then Filter(products, query) else []
  }

  lemma {:induction false} FilterSpec(products: seq<Product>, query: string)
    ensures forall p :: p in Filter(products, query) <==> p in products && Matches(p, query)
    decreases |products|
  {
    if products != [] {
      FilterSpec(products[1..], query);
      assert forall p :: p in products <==> p == products[0] || p in products[1..];
    }
  }

  /** `products.find(p => p.code === code)`: the first product with exactly that code. */
  function FindByCode(products: seq<Product>, code: string): (r: Option<Product>)
    ensures r.None? <==> forall i :: 0 <= i < |products| ==> products[i].code != code
    ensures r.Some? ==>
      (r.value.code == code
       && exists k :: (0 <= k < |products| && products[k] == r.value
                       && forall j :: 0 <= j < k ==> products[j].code != code))
    decreases |products|
  {
    if products == [] then None
    else if products[0].code == code then Some(products[0])
    else
      var r := FindByCode(products[1..], code);
      assert forall i :: 1 <= i < |products| ==> products[i] == products[1..][i - 1];
      if r.Some? then
        assert exists k :: (0 <= k < |products| && products[k] == r.value
                            && forall j :: 0 <= j < k ==> products[j].code != code) by {
          var k :| 0 <= k < |products[1..]| && products[1..][k] == r.value
            && forall j :: 0 <= j < k ==> products[1..][j].code != code;
          assert products[k + 1] == r.value;
          assert forall j :: 1 <= j < k + 1 ==> products[j] == products[1..][j - 1];
        }
        r
      else r
  }
}
