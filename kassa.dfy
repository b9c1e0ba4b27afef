/**
 * The admin register page: its cart, the numpad input buffer, the parked
 * ("saved") receipts kept in local storage, return mode and payment. Each
 * React state cell is a field; each handler is a method that changes only
 * the cells it sets.
 */
module AdminKassa {
  import opened Options
  import Receipts
  import opened Cart

  /** A parked cart. Its time-based id is chosen by the caller; the display timestamp is not modelled. */
  datatype SavedReceipt = SavedReceipt(id: string, items: seq<CartItem>, total: int)

  /** `savedReceipts.filter(r => r.id !== id)`. */
  function WithoutSaved(saved: seq<SavedReceipt>, id: string): (r: seq<SavedReceipt>)
    ensures |r| <= |saved|
    decreases |saved|
  {
    if saved == [] then []
    else (if saved[0].id == id then [] else [saved[0]]) + WithoutSaved(saved[1..], id)
  }

  /** Exactly the parked receipts with another id are kept; an unknown id changes nothing. */
  lemma {:induction false} WithoutSavedSpec(saved: seq<SavedReceipt>, id: string)
    ensures forall r :: r in WithoutSaved(saved, id) <==> r in saved && r.id != id
    ensures (forall i :: 0 <= i < |saved| ==> saved[i].id != id) ==> WithoutSaved(saved, id) == saved
    decreases |saved|
  {
    if saved != [] {
      WithoutSavedSpec(saved[1..], id);
      assert forall r :: r in saved <==> r == saved[0] || r in saved[1..];
      assert forall i :: 0 <= i < |saved[1..]| ==> saved[1..][i] == saved[i + 1];
      if forall i :: 0 <= i < |saved| ==> saved[i].id != id {
        assert saved == [saved[0]] + saved[1..];
      }
    }
  }

  /** The kept receipts stay in their order: the filter works piecewise. */
  lemma {:induction false} WithoutSavedAppend(a: seq<SavedReceipt>, b: seq<SavedReceipt>, id: string)
    ensures WithoutSaved(a + b, id) == WithoutSaved(a, id) + WithoutSaved(b, id)
    decreases |a|
  {
    if a != [] {
      var head := if a[0].id == id then [] else [a[0]];
      assert (a + b)[0] == a[0];
      assert (a + b)[1..] == a[1..] + b;
      assert WithoutSaved(a + b, id) == head + WithoutSaved(a[1..] + b, id);
      WithoutSavedAppend(a[1..], b, id);
      assert head + (WithoutSaved(a[1..], id) + WithoutSaved(b, id))
          == (head + WithoutSaved(a[1..], id)) + WithoutSaved(b, id);
    } else {
      assert a + b == b;
    }
  }

  /**
   * Parking a cart under a fresh id and loading that entry back gives the
   * same cart and the same parked list as before parking it.
   */
  lemma SaveThenLoadRestores(saved: seq<SavedReceipt>, cart: seq<CartItem>, id: string)
    requires forall i :: 0 <= i < |saved| ==> saved[i].id != id
    ensures var entry := SavedReceipt(id, cart, Total(cart));
      entry.items == cart && WithoutSaved(saved + [entry], id) == saved
  {
    var entry := SavedReceipt(id, cart, Total(cart));
    WithoutSavedAppend(saved, [entry], id);
    WithoutSavedSpec(saved, id);
    assert [entry][1..] == [];
    assert WithoutSaved([entry], id) == [] + WithoutSaved([], id);
  }

  /** The numpad's backspace key. */
  const Backspace: string := "\U{232B}"

  /** `prev.slice(0, -1)`: the buffer without its last character; the empty buffer stays empty. */
  function DropLast(s: string): (r: string)
    ensures |s| == 0 ==> r == s
    ensures |s| > 0 ==> r + [s[|s| - 1]] == s
  {
    if |s| == 0 then s else s[..|s| - 1]
  }

  /** Backspace undoes a one-character key; the two-character key `00` leaves one `0` behind. */
  lemma BackspaceUndoesKey(s: string, c: char)
    ensures DropLast(s + [c]) == s
    ensures DropLast(s + "00") == s + "0"
  {
    assert (s + [c])[..|s|] == s;
    assert (s + "00")[..|s| + 1] == s + "0";
  }

  class Kassa {
    /** The product list as last fetched. */
    var products: seq<Product>
    var cart: seq<CartItem>
    var inputValue: string
    var showSearch: bool
    var showSaved: bool
    var showPayment: bool
    var searchQuery: string
    var searchResults: seq<Product>
    var savedReceipts: seq<SavedReceipt>
    var isReturnMode: bool

    /** The cart and every parked cart hold each product once, with at least one unit. */
    ghost predicate Valid()
      reads this
    {
      WellFormed(cart) && forall i :: 0 <= i < |savedReceipts| ==> WellFormed(savedReceipts[i].items)
    }

    /** The page as mounted: the fetched products and the parked receipts read back from local storage. */
    constructor (products: seq<Product>, savedReceipts: seq<SavedReceipt>)
      requires forall i :: 0 <= i < |savedReceipts| ==> WellFormed(savedReceipts[i].items)
      ensures Valid()
      ensures this.products == products && this.savedReceipts == savedReceipts
      ensures cart == [] && inputValue == "" && searchQuery == "" && searchResults == []
      ensures !showSearch && !showSaved && !showPayment && !isReturnMode
    {
      this.products := products;
      this.savedReceipts := savedReceipts;
      cart := [];
      inputValue := "";
      searchQuery := "";
      searchResults := [];
      showSearch, showSaved, showPayment := false, false, false;
      isReturnMode := false;
    }

    /** The register's running total. */
    function Total(): int
      reads this
    {
      Cart.Total(cart)
    }

    /** `addToCart`: merge or append, then close the search dialog and clear its query. */
    method AddToCart(p: Product)
      requires Valid()
      modifies this`cart, this`showSearch, this`searchQuery
      ensures Valid()
      ensures cart == Cart.AddToCart(old(cart), p) && HasId(cart, p.id)
      ensures !showSearch && searchQuery == ""
    {
      AddToCartKeepsWellFormed(cart, p);
      cart := Cart.AddToCart(cart, p);
      showSearch := false;
      searchQuery := "";
    }

    /** `updateQuantity`. */
    method UpdateQuantity(id: string, delta: int)
      requires Valid()
      modifies this`cart
      ensures Valid()
      ensures cart == Cart.UpdateQuantity(old(cart), id, delta)
    {
      UpdateQuantityKeepsWellFormed(cart, id, delta);
      cart := Cart.UpdateQuantity(cart, id, delta);
    }

    /** `removeFromCart`. */
    method RemoveFromCart(id: string)
      requires Valid()
      modifies this`cart
      ensures Valid()
      ensures cart == Cart.RemoveFromCart(old(cart), id) && !HasId(cart, id)
    {
      RemoveFromCartKeepsWellFormed(cart, id);
      RemoveFromCartSpec(cart, id);
      cart := Cart.RemoveFromCart(cart, id);
    }

    /** `handleSearch`. */
    method HandleSearch(query: string)
      modifies this`searchQuery, this`searchResults
      ensures searchQuery == query && searchResults == Search(products, query)
    {
      searchQuery := query;
      searchResults := Search(products, query);
    }

    /** `addProductByCode`: an exact code match is added and the buffer cleared; otherwise nothing changes. */
    method AddProductByCode(code: string)
      requires Valid()
      modifies this`cart, this`showSearch, this`searchQuery, this`inputValue
      ensures Valid()
      ensures FindByCode(products, code).Some? ==>
        && cart == Cart.AddToCart(old(cart), FindByCode(products, code).value)
        && inputValue == "" && !showSearch && searchQuery == ""
      ensures FindByCode(products, code).None? ==> unchanged(this)
    {
      var found := FindByCode(products, code);
      if found.Some? {
        AddToCart(found.value);
        inputValue := "";
      }
    }

    /** `handleNumpadClick`: `C` clears, backspace drops a character, `+` looks the buffer up, any other key is appended. */
    method HandleNumpadClick(key: string)
      requires Valid()
      modifies this`cart, this`showSearch, this`searchQuery, this`inputValue
      ensures Valid()
      ensures key == "C" ==>
        inputValue == "" && unchanged(this`cart, this`showSearch, this`searchQuery)
      ensures key == Backspace ==>
        inputValue == DropLast(old(inputValue)) && unchanged(this`cart, this`showSearch, this`searchQuery)
      ensures key == "+" && FindByCode(products, old(inputValue)).Some? ==>
        && cart == Cart.AddToCart(old(cart), FindByCode(products, old(inputValue)).value)
        && inputValue == "" && !showSearch && searchQuery == ""
      ensures key == "+" && FindByCode(products, old(inputValue)).None? ==> unchanged(this)
      ensures key != "C" && key != Backspace && key != "+" ==>
        inputValue == old(inputValue) + key && unchanged(this`cart, this`showSearch, this`searchQuery)
    {
      if key == "C" {
        inputValue := "";
      } else if key == Backspace {
        inputValue := DropLast(inputValue);
      } else if key == "+" {
        AddProductByCode(inputValue);
      } else {
        inputValue := inputValue + key;
      }
    }

    /** `toggleReturnMode`: entering return mode empties the cart, leaving it keeps the cart. */
    method ToggleReturnMode()
      requires Valid()
      modifies this`isReturnMode, this`cart
      ensures Valid()
      ensures isReturnMode == !old(isReturnMode)
      ensures cart == if old(isReturnMode) then old(cart) else []
    {
      var wasReturnMode := isReturnMode;
      isReturnMode := !wasReturnMode;
      if !wasReturnMode {
        cart := [];
      }
    }

    /**
     * `handlePayment`: nothing for an empty cart; otherwise the cart is posted
     * as a receipt, and only a successful post empties the cart and ends
     * return mode. `posted` is the outcome of the request.
     */
    method HandlePayment(payment: Receipts.PaymentMethod, posted: bool) returns (request: Option<ReceiptRequest>)
      requires Valid()
      modifies this`cart, this`showPayment, this`isReturnMode
      ensures Valid()
      ensures old(cart) == [] ==> request == None && unchanged(this)
      ensures old(cart) != [] ==>
        request == Some(ReceiptRequest(ToLines(old(cart)), Cart.Total(old(cart)), Some(payment), Some(old(isReturnMode))))
      ensures old(cart) != [] && posted ==> cart == [] && !showPayment && !isReturnMode
      ensures old(cart) != [] && !posted ==> unchanged(this)
    {
      if cart == [] {
        return None;
      }
      request := Some(ReceiptRequest(ToLines(cart), Total(), Some(payment), Some(isReturnMode)));
      if posted {
        cart := [];
        showPayment := false;
        isReturnMode := false;
      }
    }

    /** `saveReceipt`: an empty cart is refused; otherwise a snapshot is parked and the cart emptied. */
    method SaveReceipt(id: string)
      requires Valid()
      modifies this`savedReceipts, this`cart
      ensures Valid()
      ensures old(cart) == [] ==> unchanged(this)
      ensures old(cart) != [] ==>
        && savedReceipts == old(savedReceipts) + [SavedReceipt(id, old(cart), Cart.Total(old(cart)))]
        && cart == []
    {
      if cart == [] {
        return;
      }
      var entry := SavedReceipt(id, cart, Total());
      savedReceipts := savedReceipts + [entry];
      cart := [];
    }

    /** `loadSavedReceipt`: the parked cart becomes the cart and leaves the parked list. */
    method LoadSavedReceipt(receipt: SavedReceipt)
      requires Valid()
      modifies this`cart, this`savedReceipts, this`showSaved
      ensures receipt in old(savedReceipts) ==> Valid()
      ensures cart == receipt.items && savedReceipts == WithoutSaved(old(savedReceipts), receipt.id)
      ensures !showSaved
    {
      WithoutSavedSpec(savedReceipts, receipt.id);
      cart := receipt.items;
      savedReceipts := WithoutSaved(savedReceipts, receipt.id);
      showSaved := false;
    }

    /** `deleteSavedReceipt`. */
    method DeleteSavedReceipt(id: string)
      requires Valid()
      modifies this`savedReceipts
      ensures Valid()
      ensures savedReceipts == WithoutSaved(old(savedReceipts), id)
    {
      WithoutSavedSpec(savedReceipts, id);
      savedReceipts := WithoutSaved(savedReceipts, id);
    }
  }
}
