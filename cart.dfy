/**
  The cart as a value: its lines, the lookup `addToCart` performs, the merge-or-append
  step itself, and the two folds the page shows (the badge count and the receipt total).
  The class in module App applies `Added` to its `cart` field in place.
 */
module CartLines {
  import opened Wrappers

  /** The single flat unit price (euros) every line added from the product dialog carries. */
  const PRICE: int := 15

  /** One cart line. The source's `type` field is `kind` here (`type` is a Dafny keyword). */
  datatype LineItem = LineItem(id: string, name: string, producer: string, kind: string, qty: int, price: int)

  /** The lookup key of `addToCart`: a line matches when both `id` and `type` are equal. */
  predicate SameKey(line: LineItem, id: string, kind: string) {
    line.id == id && line.kind == kind
  }

  predicate HasKey(cart: seq<LineItem>, id: string, kind: string) {
    exists j :: 0 <= j < |cart| && SameKey(cart[j], id, kind)
  }

  /** `Array.prototype.find`: the index of the FIRST line with the key, if any. */
  function FirstMatch(cart: seq<LineItem>, id: string, kind: string): (r: Option<nat>)
    ensures r.Some? ==> r.value < |cart| && SameKey(cart[r.value], id, kind)
    ensures r.Some? ==> forall j :: 0 <= j < r.value ==> !SameKey(cart[j], id, kind)
    ensures r.None? <==> !HasKey(cart, id, kind)
  {
    if cart == [] then None
    else if SameKey(cart[0], id, kind) then Some(0)
    else match FirstMatch(cart[1..], id, kind)
      case None =>
        assert forall j :: 1 <= j < |cart| ==> cart[j] == cart[1..][j - 1];
        None
      case Some(k) =>
        assert forall j :: 1 <= j < |cart| ==> cart[j] == cart[1..][j - 1];
        Some(k + 1)
  }

  /**
    `addToCart(item)` on the cart's value: the first line with the item's key gets the
    item's quantity added to it (its other fields, price included, stay as they were);
    with no such line the item itself is appended.
   */
  function Added(cart: seq<LineItem>, item: LineItem): (r: seq<LineItem>)
    ensures |r| == if HasKey(cart, item.id, item.kind) then |cart| else |cart| + 1
    ensures !HasKey(cart, item.id, item.kind) ==> r[|cart|] == item
  {
    match FirstMatch(cart, item.id, item.kind)
    case Some(i) => cart[i := cart[i].(qty := cart[i].qty + item.qty)]
    case None => cart + [item]
  }

  /** A sequence of `addToCart` calls, oldest first. */
  function AddedAll(cart: seq<LineItem>, items: seq<LineItem>): (r: seq<LineItem>)
    ensures |cart| <= |r| <= |cart| + |items|
  {
    if items == [] then cart
    else Added(AddedAll(cart, items[..|items| - 1]), items[|items| - 1])
  }

  /** `cart.reduce((s, i) => s + f(i), 0)`: a left fold, so the last line is added last. */
  function SumBy(cart: seq<LineItem>, f: LineItem -> int): int {
    if cart == [] then 0 else SumBy(cart[..|cart| - 1], f) + f(cart[|cart| - 1])
  }

  function LineQty(line: LineItem): int { line.qty }

  function LineAmount(line: LineItem): int { line.qty * line.price }

  /** The badge number: the sum of the lines' quantities. */
  function Count(cart: seq<LineItem>): int { SumBy(cart, LineQty) }

  /** The receipt total: the sum of quantity times the line's own price. */
  function Total(cart: seq<LineItem>): int { SumBy(cart, LineAmount) }

  ghost predicate DistinctKeys(cart: seq<LineItem>) {
    forall i, j :: 0 <= i < j < |cart| ==> !SameKey(cart[j], cart[i].id, cart[i].kind)
  }

  ghost predicate FlatPriced(cart: seq<LineItem>) {
    forall i :: 0 <= i < |cart| ==> cart[i].price == PRICE
  }

  ghost predicate PositiveQuantities(cart: seq<LineItem>) {
    forall i :: 0 <= i < |cart| ==> cart[i].qty >= 1
  }

  ghost function Keys(cart: seq<LineItem>): set<(string, string)> {
    set i | 0 <= i < |cart| :: (cart[i].id, cart[i].kind)
  }

  // ---------------------------------------------------------------- merge or append

  /** With a line of the same key present, only that line changes, by the item's quantity. */
  lemma AddMergesIntoExisting(cart: seq<LineItem>, item: LineItem, i: nat)
    requires i < |cart| && SameKey(cart[i], item.id, item.kind)
    requires forall j :: 0 <= j < i ==> !SameKey(cart[j], item.id, item.kind)
    ensures |Added(cart, item)| == |cart|
    ensures Added(cart, item)[i] == cart[i].(qty := cart[i].qty + item.qty)
    ensures forall j :: 0 <= j < |cart| && j != i ==> Added(cart, item)[j] == cart[j]
  {
  }

  /** With no line of the same key, the item is appended and every earlier line stays in place. */
  lemma AddAppendsNew(cart: seq<LineItem>, item: LineItem)
    requires !HasKey(cart, item.id, item.kind)
    ensures Added(cart, item) == cart + [item]
    ensures |Added(cart, item)| == |cart| + 1
    ensures Added(cart, item)[..|cart|] == cart && Added(cart, item)[|cart|] == item
  {
  }

  /** A cart whose keys are pairwise distinct keeps them distinct. */
  lemma AddKeepsKeysDistinct(cart: seq<LineItem>, item: LineItem)
    requires DistinctKeys(cart)
    ensures DistinctKeys(Added(cart, item))
  {
  }

  /** The set of keys grows by exactly the item's key. */
  lemma AddedKeys(cart: seq<LineItem>, item: LineItem)
    ensures Keys(Added(cart, item)) == Keys(cart) + {(item.id, item.kind)}
  {
    var r := Added(cart, item);
    match FirstMatch(cart, item.id, item.kind)
    case Some(k) =>
      assert forall j :: 0 <= j < |r| ==> r[j].id == cart[j].id && r[j].kind == cart[j].kind;
      assert (cart[k].id, cart[k].kind) in Keys(cart);
    case None =>
      assert r[|cart|] == item;
      assert forall j :: 0 <= j < |cart| ==> r[j] == cart[j];
  }

  lemma AddKeepsFlatPrice(cart: seq<LineItem>, item: LineItem)
    requires FlatPriced(cart) && item.price == PRICE
    ensures FlatPriced(Added(cart, item))
  {
  }

  /** The invariant the stepper's clamp exists for: stored quantities are never below 1. */
  lemma AddKeepsQuantitiesPositive(cart: seq<LineItem>, item: LineItem)
    requires PositiveQuantities(cart) && item.qty >= 1
    ensures PositiveQuantities(Added(cart, item))
  {
  }

  // ---------------------------------------------------------------- folds

  lemma {:induction false} SumByAppend(cart: seq<LineItem>, line: LineItem, f: LineItem -> int)
    ensures SumBy(cart + [line], f) == SumBy(cart, f) + f(line)
  {
  }

  /** Replacing one line changes a fold by exactly the difference of that line's terms. */
  lemma {:induction false} SumByUpdate(cart: seq<LineItem>, i: nat, line: LineItem, f: LineItem -> int)
    requires i < |cart|
    ensures SumBy(cart[i := line], f) == SumBy(cart, f) - f(cart[i]) + f(line)
  {
    var n := |cart| - 1;
    if i == n {
      assert cart[i := line][..n] == cart[..n];
    } else {
      assert cart[i := line][..n] == cart[..n][i := line];
      SumByUpdate(cart[..n], i, line, f);
    }
  }

  /** The badge grows by exactly the added quantity, whether the item merged or was appended. */
  lemma CountAfterAdd(cart: seq<LineItem>, item: LineItem)
    ensures Count(Added(cart, item)) == Count(cart) + item.qty
  {
    match FirstMatch(cart, item.id, item.kind)
    case Some(i) => SumByUpdate(cart, i, cart[i].(qty := cart[i].qty + item.qty), LineQty);
    case None => SumByAppend(cart, item, LineQty);
  }

  /** Appending a new line grows the total by the item's quantity times its own price. */
  lemma TotalAfterAppend(cart: seq<LineItem>, item: LineItem)
    requires !HasKey(cart, item.id, item.kind)
    ensures Total(Added(cart, item)) == Total(cart) + item.qty * item.price
  {
    SumByAppend(cart, item, LineAmount);
  }

  /**
    Merging into the first line with the item's key grows the total by the item's quantity
    times that EXISTING line's price: only `qty` is updated, the item's price is dropped.
   */
  lemma TotalAfterMerge(cart: seq<LineItem>, item: LineItem, i: nat)
    requires FirstMatch(cart, item.id, item.kind) == Some(i)
    ensures Total(Added(cart, item)) == Total(cart) + item.qty * cart[i].price
  {
    var line := cart[i].(qty := cart[i].qty + item.qty);
    AddedByMerge(cart, item, i);
    SumByUpdate(cart, i, line, LineAmount);
    LineAmountGrows(cart[i], item.qty);
    assert SumBy(cart[i := line], LineAmount) == Total(cart) + item.qty * cart[i].price;
  }

  lemma AddedByMerge(cart: seq<LineItem>, item: LineItem, i: nat)
    requires FirstMatch(cart, item.id, item.kind) == Some(i)
    ensures Added(cart, item) == cart[i := cart[i].(qty := cart[i].qty + item.qty)]
  {
  }

  lemma LineAmountGrows(line: LineItem, extra: int)
    ensures LineAmount(line.(qty := line.qty + extra)) == LineAmount(line) + extra * line.price
  {
    var q, p := line.qty, line.price;
    assert (q + extra) * p == q * p + extra * p;
  }

  /** When every line carries the flat price, the receipt total is that price times the badge. */
  lemma {:induction false} TotalIsFlatPriceTimesCount(cart: seq<LineItem>)
    requires FlatPriced(cart)
    ensures Total(cart) == PRICE * Count(cart)
  {
    if cart != [] {
      var n := |cart| - 1;
      TotalIsFlatPriceTimesCount(cart[..n]);
      assert LineAmount(cart[n]) == PRICE * LineQty(cart[n]);
    }
  }

  /** Quantities of at least one each make the badge at least the number of lines. */
  lemma {:induction false} CountAtLeastLines(cart: seq<LineItem>)
    requires PositiveQuantities(cart)
    ensures Count(cart) >= |cart|
  {
    if cart != [] {
      CountAtLeastLines(cart[..|cart| - 1]);
    }
  }

  // ---------------------------------------------------------------- many adds

  /** After any sequence of adds, the badge equals what was there plus every quantity passed in. */
  lemma {:induction false} CountAfterAddingAll(cart: seq<LineItem>, items: seq<LineItem>)
    ensures Count(AddedAll(cart, items)) == Count(cart) + Count(items)
  {
    if items != [] {
      var n := |items| - 1;
      CountAfterAddingAll(cart, items[..n]);
      CountAfterAdd(AddedAll(cart, items[..n]), items[n]);
    }
  }

  /**
    After any sequence of adds, the keys are distinct and are exactly the keys that were
    there plus the keys passed in: equal keys were merged, different keys kept apart.
   */
  lemma {:induction false} KeysAfterAddingAll(cart: seq<LineItem>, items: seq<LineItem>)
    requires DistinctKeys(cart)
    ensures DistinctKeys(AddedAll(cart, items))
    ensures Keys(AddedAll(cart, items)) == Keys(cart) + Keys(items)
  {
    if items != [] {
      var n := |items| - 1;
      KeysAfterAddingAll(cart, items[..n]);
      AddKeepsKeysDistinct(AddedAll(cart, items[..n]), items[n]);
      AddedKeys(AddedAll(cart, items[..n]), items[n]);
      KeysOfPrefix(items);
    }
  }

  lemma KeysOfPrefix(items: seq<LineItem>)
    requires items != []
    ensures Keys(items) == Keys(items[..|items| - 1]) + {(items[|items| - 1].id, items[|items| - 1].kind)}
  {
    var n := |items| - 1;
    assert forall j :: 0 <= j < n ==> items[..n][j] == items[j];
  }

  // ---------------------------------------------------------------- scenarios

  /** f1/liquid x2 then f1/liquid x3 leaves one line with quantity 5. */
  lemma SameKeyTwiceMerges(name: string, producer: string)
    ensures Added(Added([], LineItem("f1", name, producer, "liquid", 2, PRICE)),
                  LineItem("f1", name, producer, "liquid", 3, PRICE))
         == [LineItem("f1", name, producer, "liquid", 5, PRICE)]
  {
  }

  /** f1/liquid then f1/pod leaves two lines: the keys differ by type. */
  lemma DifferentTypeKeptApart(name: string, producer: string)
    ensures |Added(Added([], LineItem("f1", name, producer, "liquid", 1, PRICE)),
                   LineItem("f1", name, producer, "pod", 1, PRICE))| == 2
  {
  }
}
