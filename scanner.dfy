/**
 * The helper's scanner page: a cart built by search or by camera scan, sent
 * to the cashier as a receipt that the server stores as pending. Each React
 * state cell is a field; the camera itself is not modelled, only what its
 * decode callback does.
 */
module HelperScanner {
  import opened Options
  import opened Cart

  class Scanner {
    /** The product list as fetched on mount. */
    var products: seq<Product>
    var cart: seq<CartItem>
    var searchQuery: string
    var searchResults: seq<Product>
    var scannedProduct: Option<Product>
    var sending: bool

    /** The cart holds each product once, with at least one unit. */
    ghost predicate Valid()
      reads this
    {
      WellFormed(cart)
    }

    constructor (products: seq<Product>)
      ensures Valid()
      ensures this.products == products && cart == [] && searchQuery == "" && searchResults == []
      ensures scannedProduct.None? && !sending
    {
      this.products := products;
      cart := [];
      searchQuery := "";
      searchResults := [];
      scannedProduct := None;
      sending := false;
    }

    /** `handleSearch`: always forgets the scanned product. */
    method HandleSearch(query: string)
      modifies this`searchQuery, this`scannedProduct, this`searchResults
      ensures searchQuery == query && scannedProduct.None? && searchResults == Search(products, query)
    {
      searchQuery := query;
      scannedProduct := None;
      searchResults := Search(products, query);
    }

    /** `addToCart`: merge or append, then clear the query, the results and the scanned product. */
    method AddToCart(p: Product)
      requires Valid()
      modifies this`cart, this`searchQuery, this`searchResults, this`scannedProduct
      ensures Valid()
      ensures cart == Cart.AddToCart(old(cart), p) && HasId(cart, p.id)
      ensures searchQuery == "" && searchResults == [] && scannedProduct.None?
    {
      AddToCartKeepsWellFormed(cart, p);
      cart := Cart.AddToCart(cart, p);
      searchQuery := "";
      searchResults := [];
      scannedProduct := None;
    }

    /** `updateQuantity`. */
    method UpdateQuantity(id: string, delta: int)
      requires Valid()
      modifies this`cart
      ensures Valid()
      ensures cart == Cart.UpdateQuantity(old(cart), id, delta)
    {
      UpdateQuantityKeepsWellFormed(cart, id, delta);
      cart := Cart.UpdateQuantity(cart, id, delta);
    }

    /** `removeFromCart`. */
    method RemoveFromCart(id: string)
      requires Valid()
      modifies this`cart
      ensures Valid()
      ensures cart == Cart.RemoveFromCart(old(cart), id) && !HasId(cart, id)
    {
      RemoveFromCartKeepsWellFormed(cart, id);
      RemoveFromCartSpec(cart, id);
      cart := Cart.RemoveFromCart(cart, id);
    }

    /** `startScanner`'s resets before the camera starts. */
    method StartScanner()
      modifies this`scannedProduct, this`searchQuery, this`searchResults
      ensures scannedProduct.None? && searchQuery == "" && searchResults == []
    {
      scannedProduct := None;
      searchQuery := "";
      searchResults := [];
    }

    /** The decode callback: the product with exactly the decoded code is selected; an unknown code selects nothing. */
    method OnScan(decodedText: string)
      modifies this`scannedProduct
      ensures FindByCode(products, decodedText).Some? ==> scannedProduct == FindByCode(products, decodedText)
      ensures FindByCode(products, decodedText).None? ==> scannedProduct == old(scannedProduct)
      ensures scannedProduct.Some? && scannedProduct != old(scannedProduct) ==>
        scannedProduct.value in products && scannedProduct.value.code == decodedText
    {
      var found := FindByCode(products, decodedText);
      if found.Some? {
        scannedProduct := found;
      }
    }

    /**
     * `sendToCashier`: nothing for an empty cart; otherwise one line per cart
     * entry and the total are posted (no payment method, no return flag), and
     * only a successful post empties the cart. `posted` is its outcome.
     */
    method SendToCashier(posted: bool) returns (request: Option<ReceiptRequest>)
      requires Valid()
      modifies this`cart, this`sending
      ensures Valid()
      ensures old(cart) == [] ==> request == None && unchanged(this)
      ensures old(cart) != [] ==>
        && request == Some(ReceiptRequest(ToLines(old(cart)), Total(old(cart)), None, None))
        && !sending
        && cart == (if posted then [] else old(cart))
    {
      if cart == [] {
        return None;
      }
      sending := true;
      request := Some(ReceiptRequest(ToLines(cart), Total(cart), None, None));
      if posted {
        cart := [];
      }
      sending := false;
    }
  }

  /** A scan after the scanner was started selects nothing when the code is unknown. */
  method ScanUnknownCode(page: Scanner, decodedText: string)
    requires FindByCode(page.products, decodedText).None?
    modifies page
    ensures page.scannedProduct.None?
  {
    page.StartScanner();
    page.OnScan(decodedText);
  }
}
