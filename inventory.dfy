/**
 * Product stock as the receipt routes see it: a map from product id to a
 * signed quantity (the product schema has no lower bound), changed only by
 * Mongoose `$inc` updates, and the per-line availability check the online
 * checkout and the approval run before they decrement anything.
 */
module Inventory {
  import opened Options

  type ProductId = string

  /** One receipt line: the product it refers to and how many units it moves. */
  datatype LineItem = LineItem(product: ProductId, name: string, code: string, price: int, quantity: int)

  /** Stock quantity of every product that exists. */
  type Stock = map<ProductId, int>

  /** `findByIdAndUpdate(p, {$inc: {quantity: d}})`: an unknown product id matches nothing. */
  function Inc(stock: Stock, p: ProductId, d: int): (r: Stock)
    ensures r.Keys == stock.Keys
    ensures p in stock ==> r[p] == stock[p] + d
    ensures forall q :: q in stock && q != p ==> r[q] == stock[q]
  {
    if p in stock then stock[p := stock[p] + d] else stock
  }

  /** The signed change of one line: a return restocks, a sale depletes. */
  function Delta(isReturn: bool, quantity: int): (r: int)
    ensures isReturn ==> r == quantity
    ensures !isReturn ==> r + quantity == 0
  {
    if isReturn then quantity else -quantity
  }

  /** The stock after the handlers' loop that increments each line's product in order. */
  function ApplyLines(stock: Stock, items: seq<LineItem>, isReturn: bool): (r: Stock)
    ensures r.Keys == stock.Keys
    decreases |items|
  {
    if items == [] then stock
    else
      var last := items[|items| - 1];
      Inc(ApplyLines(stock, items[..|items| - 1], isReturn), last.product, Delta(isReturn, last.quantity))
  }

  /** The total quantity the lines ask for product `p`. */
  function Qty(items: seq<LineItem>, p: ProductId): (r: int)
    decreases |items|
  {
    if items == [] then 0
    else
      var last := items[|items| - 1];
      Qty(items[..|items| - 1], p) + (if last.product == p then last.quantity else 0)
  }

  /** Applying the lines moves each existing product by the signed sum of its lines, and nothing else. */
  lemma {:induction false} ApplyLinesAt(stock: Stock, items: seq<LineItem>, isReturn: bool)
    ensures ApplyLines(stock, items, isReturn).Keys == stock.Keys
    ensures forall p :: p in stock ==>
      ApplyLines(stock, items, isReturn)[p] == stock[p] + Delta(isReturn, Qty(items, p))
    decreases |items|
  {
    if items != [] {
      ApplyLinesAt(stock, items[..|items| - 1], isReturn);
    }
  }

  /** Why a line cannot be served: its product is missing, or has less stock than asked. */
  datatype Shortage = NotFound(name: string) | Insufficient(name: string, available: int, requested: int)

  /** The check of one line against the stock as it is (`!product`, `product.quantity < item.quantity`). */
  function LineShortage(stock: Stock, item: LineItem): (r: Option<Shortage>)
    ensures r.None? <==> (item.product in stock && stock[item.product] >= item.quantity)
  {
    if item.product !in stock then Some(NotFound(item.name))
    else if stock[item.product] < item.quantity then
      Some(Insufficient(item.name, stock[item.product], item.quantity))
    else None
  }

  /** Every line, taken on its own, is covered by the stock. */
  ghost predicate LinesAvailable(stock: Stock, items: seq<LineItem>)
  {
    forall i :: 0 <= i < |items| ==> LineShortage(stock, items[i]).None?
  }

  /** The first line, in order, that the stock does not cover; lines are not summed per product. */
  function FirstShortage(stock: Stock, items: seq<LineItem>): (r: Option<Shortage>)
    ensures r.Some? ==> exists k :: 0 <= k < |items| && r == LineShortage(stock, items[k])
    decreases |items|
  {
    if items == [] then None
    else if LineShortage(stock, items[0]).Some? then LineShortage(stock, items[0])
    else FirstShortage(stock, items[1..])
  }

  /** The check passes exactly when every line is covered; otherwise it reports the first uncovered line. */
  lemma {:induction false} FirstShortageSpec(stock: Stock, items: seq<LineItem>)
    ensures FirstShortage(stock, items).None? <==> LinesAvailable(stock, items)
    ensures FirstShortage(stock, items).Some? ==>
      exists k :: 0 <= k < |items| && LinesAvailable(stock, items[..k])
        && FirstShortage(stock, items) == LineShortage(stock, items[k])
    decreases |items|
  {
    if items != [] {
      FirstShortageSpec(stock, items[1..]);
      if LineShortage(stock, items[0]).Some? {
        assert items[..0] == [];
      } else {
        if FirstShortage(stock, items[1..]).Some? {
          var k :| 0 <= k < |items[1..]| && LinesAvailable(stock, items[1..][..k])
            && FirstShortage(stock, items[1..]) == LineShortage(stock, items[1..][k]);
          assert items[..k + 1] == [items[0]] + items[1..][..k];
          assert LinesAvailable(stock, items[..k + 1]);
        }
        assert forall i :: 1 <= i < |items| ==> items[i] == items[1..][i - 1];
      }
    }
  }

  /** The check loop of the online checkout and of the approval: it stops at the first uncovered line. */
  method CheckStock(stock: Stock, items: seq<LineItem>) returns (shortage: Option<Shortage>)
    ensures shortage == FirstShortage(stock, items)
    ensures shortage.None? <==> LinesAvailable(stock, items)
  {
    FirstShortageSpec(stock, items);
    var i := 0;
    while i < |items|
      invariant 0 <= i <= |items|
      invariant FirstShortage(stock, items) == FirstShortage(stock, items[i..])
    {
      var s := LineShortage(stock, items[i]);
      if s.Some? {
        return s;
      }
      assert items[i..][1..] == items[i + 1..];
      i := i + 1;
    }
    return None;
  }

  /** The increment loop of the handlers: one `$inc` per line, in order. */
  method IncLines(stock: Stock, items: seq<LineItem>, isReturn: bool) returns (r: Stock)
    ensures r == ApplyLines(stock, items, isReturn)
    ensures r.Keys == stock.Keys
    ensures forall p :: p in stock ==> r[p] == stock[p] + Delta(isReturn, Qty(items, p))
  {
    ApplyLinesAt(stock, items, isReturn);
    r := stock;
    var j := 0;
    while j < |items|
      invariant 0 <= j <= |items|
      invariant r == ApplyLines(stock, items[..j], isReturn)
    {
      assert items[..j + 1][..j] == items[..j];
      r := Inc(r, items[j].product, Delta(isReturn, items[j].quantity));
      j := j + 1;
    }
    assert items[..j] == items;
  }

  /** No two lines name the same product. */
  predicate DistinctProducts(items: seq<LineItem>)
  {
    forall i, j :: 0 <= i < j < |items| ==> items[i].product != items[j].product
  }

  /** With distinct products, the quantity asked for a line's product is that line's quantity. */
  lemma {:induction false} QtyOfDistinct(items: seq<LineItem>, p: ProductId)
    requires DistinctProducts(items)
    ensures forall k :: 0 <= k < |items| && items[k].product == p ==> Qty(items, p) == items[k].quantity
    ensures (forall k :: 0 <= k < |items| ==> items[k].product != p) ==> Qty(items, p) == 0
    decreases |items|
  {
    if items != [] {
      var init := items[..|items| - 1];
      assert DistinctProducts(init);
      QtyOfDistinct(init, p);
      assert forall k :: 0 <= k < |init| ==> init[k] == items[k];
    }
  }

  /**
   * When the lines name distinct products and the per-line check passes,
   * decrementing cannot drive a non-negative stock below zero.
   */
  lemma DistinctLinesStayNonNegative(stock: Stock, items: seq<LineItem>)
    requires DistinctProducts(items)
    requires FirstShortage(stock, items).None?
    requires forall p :: p in stock ==> stock[p] >= 0
    ensures forall p :: p in stock ==> ApplyLines(stock, items, false)[p] >= 0
  {
    FirstShortageSpec(stock, items);
    ApplyLinesAt(stock, items, false);
    forall p | p in stock
      ensures ApplyLines(stock, items, false)[p] >= 0
    {
      QtyOfDistinct(items, p);
      if k :| 0 <= k < |items| && items[k].product == p {
        assert LineShortage(stock, items[k]).None?;
      }
    }
  }

  /**
   * The check is per line, against the stock before any decrement: two lines
   * of the same product, each within stock, pass together and overdraw it.
   */
  lemma PerLineCheckAdmitsOverdraw()
    ensures var stock := map["p" := 1];
            var line := LineItem("p", "Tea", "100", 5000, 1);
            FirstShortage(stock, [line, line]).None?
            && ApplyLines(stock, [line, line], false)["p"] == -1
  {
    var stock := map["p" := 1];
    var line := LineItem("p", "Tea", "100", 5000, 1);
    assert [line, line][..1] == [line];
    assert [line, line][1..] == [line];
    assert FirstShortage(stock, [line]).None?;
    ApplyLinesAt(stock, [line, line], false);
    assert Qty([line], "p") == 1 by { assert [line][..0] == []; }
  }

  /** A return of 2 units at stock 5 leaves 7; a sale of 2 units leaves 3. */
  lemma ReturnSign()
    ensures var line := LineItem("p", "Tea", "100", 5000, 2);
            ApplyLines(map["p" := 5], [line], true)["p"] == 7
            && ApplyLines(map["p" := 5], [line], false)["p"] == 3
  {
    var line := LineItem("p", "Tea", "100", 5000, 2);
    assert [line][..0] == [];
    ApplyLinesAt(map["p" := 5], [line], true);
    ApplyLinesAt(map["p" := 5], [line], false);
  }
}
