/**
  The figures of the receipt view (`renderReceipt`) and of the copied receipt text: the
  city label, one amount per line and the total. Date and currency formatting are not
  part of this model.
 */
module Receipt {
  import opened Wrappers
  import opened CartLines
  import opened Persistence

  const NO_CITY: string := "—"

  datatype Receipt =
    | EmptyCart(cityLabel: string)
    | Itemised(cityLabel: string, amounts: seq<int>, total: int)

  function Amounts(cart: seq<LineItem>): (r: seq<int>)
    ensures |r| == |cart|
    ensures forall i :: 0 <= i < |cart| ==> r[i] == cart[i].qty * cart[i].price
  {
    seq(|cart|, i requires 0 <= i < |cart| => LineAmount(cart[i]))
  }

  function SumInts(xs: seq<int>): int {
    if xs == [] then 0 else SumInts(xs[..|xs| - 1]) + xs[|xs| - 1]
  }

  /** The receipt for a city and cart: an empty-cart message, or one amount per line and the total. */
  function ReceiptOf(city: Option<string>, cart: seq<LineItem>): (r: Receipt)
    ensures r.EmptyCart? <==> cart == []
    ensures r.cityLabel == if Truthy(city) then city.value else NO_CITY
    ensures r.Itemised? ==> |r.amounts| == |cart| && r.total == Total(cart)
    ensures r.Itemised? ==> forall i :: 0 <= i < |cart| ==> r.amounts[i] == cart[i].qty * cart[i].price
  {
    var shown := if Truthy(city) then city.value else NO_CITY;
    if cart == [] then EmptyCart(shown) else Itemised(shown, Amounts(cart), Total(cart))
  }

  /** The line amounts printed on the receipt add up to the total printed beneath them. */
  lemma {:induction false} AmountsAddUpToTotal(cart: seq<LineItem>)
    ensures SumInts(Amounts(cart)) == Total(cart)
  {
    if cart != [] {
      var n := |cart| - 1;
      assert Amounts(cart)[..n] == Amounts(cart[..n]);
      AmountsAddUpToTotal(cart[..n]);
    }
  }

  /** With flat prices, the receipt's total is the flat price times the badge number. */
  lemma ReceiptTotalIsFlat(city: Option<string>, cart: seq<LineItem>)
    requires cart != [] && FlatPriced(cart)
    ensures ReceiptOf(city, cart).total == PRICE * Count(cart)
  {
    TotalIsFlatPriceTimesCount(cart);
  }
}
