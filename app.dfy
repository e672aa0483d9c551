/**
  The page's single global `state` object and the handlers that change it: city choice,
  the continue guard, producer choice, the product dialog, add to cart, clearing the cart
  and placing an order. Every handler that calls `save()` leaves `storage` holding what a
  later start-up would load.
 */
module App {
  import opened Wrappers
  import opened CartLines
  import opened Stepper
  import opened Persistence

  /** The views of the single-page app. */
  datatype Page = Home | Manufacturers | Flavors | Cart

  datatype Producer = Producer(id: string, name: string)

  /** What a flavour card hands to the product dialog. */
  datatype Product = Product(id: string, name: string, producer: string, kind: string, stock: int)

  /** How `placeOrder` ended. */
  datatype OrderOutcome =
    | EmptyCartAlert    // nothing in the cart: an alert, nothing else
    | Declined          // the user did not confirm
    | HostClosed        // the host app's close capability was called
    | ConfirmedLocally  // no host capability: acknowledged here and the cart cleared

  const DEFAULT_KIND: string := "liquid"
  const NO_PRODUCER: string := "—"

  /** The number a string of decimal digits denotes, most significant digit first. */
  function DigitsValue(s: string): int {
    if s == [] then 0 else 10 * DigitsValue(s[..|s| - 1]) + (s[|s| - 1] as int - '0' as int)
  }

  /** `${n}` for a non-negative integer: its decimal digits, which denote `n`. */
  function DecimalString(n: nat): (s: string)
    ensures |s| >= 1 && forall k :: 0 <= k < |s| ==> '0' <= s[k] <= '9'
    ensures DigitsValue(s) == n
  {
    var last := ["0123456789"[n % 10]];
    var s := if n < 10 then last else DecimalString(n / 10) + last;
    assert n >= 10 ==> s[..|s| - 1] == DecimalString(n / 10);
    s
  }

  /** Different flavour cards give different cart keys. */
  lemma FlavorIdsDistinct(i: nat, j: nat, producer: Option<Producer>, selectedType: Option<string>)
    requires i != j
    ensures FlavorProduct(i, producer, selectedType).id != FlavorProduct(j, producer, selectedType).id
  {
    var a, b := DecimalString(i), DecimalString(j);
    assert ("f" + a)[1..] == a && ("f" + b)[1..] == b;
  }

  /** The product of flavour card number `i`, as the card's click handler builds it. */
  function FlavorProduct(i: nat, producer: Option<Producer>, selectedType: Option<string>): (p: Product)
    ensures p.stock == FLAVOR_STOCK
    ensures !Truthy(selectedType) ==> p.kind == DEFAULT_KIND
    ensures producer.None? ==> p.producer == NO_PRODUCER
    ensures producer.Some? ==> p.producer == producer.value.name
    ensures Truthy(selectedType) ==> p.kind == selectedType.value
    ensures p.id == "f" + DecimalString(i) && DigitsValue(p.id[1..]) == i
  {
    Product("f" + DecimalString(i), "Вкус #" + DecimalString(i),
            if producer.Some? then producer.value.name else NO_PRODUCER,
            if selectedType.Some? && selectedType.value != "" then selectedType.value else DEFAULT_KIND,
            FLAVOR_STOCK)
  }

  class AppState {
    var city: Option<string>
    var cart: seq<LineItem>
    var selectedProducer: Option<Producer>
    var selectedType: Option<string>
    var selectedFlavor: Option<Product>
    var page: Page
    var storage: Store

    /**
      No handler ever assigns `selectedType` or `selectedFlavor`, and every handler that
      changes the city or the cart saves both, so a start-up would load the current state.
     */
    ghost predicate Valid()
      reads this
    {
      && selectedType == None
      && selectedFlavor == None
      && Load(storage) == Snapshot(Normalized(city), cart)
    }

    /** Start-up: city and cart come from the store, nothing is selected, the home view shows. */
    constructor (stored: Store)
      ensures Valid()
      ensures Snapshot(city, cart) == Load(stored) && storage == stored
      ensures selectedProducer == None && page == Home
    {
      var loaded := Load(stored);
      city := loaded.city;
      cart := loaded.cart;
      selectedProducer := None;
      selectedType := None;
      selectedFlavor := None;
      page := Home;
      storage := stored;
    }

    /** `save()`: only the city and the cart are written. */
    method Persist()
      modifies this`storage
      ensures storage == Save(old(storage), city, cart)
      ensures Load(storage) == Snapshot(Normalized(city), cart)
    {
      storage := Save(storage, city, cart);
      LoadAfterSave(old(storage), city, cart);
    }

    /** A city button: the city is overwritten and saved. */
    method SelectCity(name: string)
      requires Valid()
      modifies this`city, this`storage
      ensures Valid()
      ensures city == Some(name) && storage == Save(old(storage), city, cart)
      ensures cart == old(cart) && page == old(page) && selectedProducer == old(selectedProducer)
    {
      city := Some(name);
      Persist();
    }

    /** "Continue": to the producers only when a city is chosen; otherwise an alert and no move. */
    method Continue() returns (blocked: bool)
      requires Valid()
      modifies this`page
      ensures Valid()
      ensures blocked <==> !Truthy(city)
      ensures page == if blocked then old(page) else Manufacturers
    {
      blocked := !Truthy(city);
      if !blocked {
        page := Manufacturers;
      }
    }

    /** A producer card: the producer becomes the selection and the flavours view shows. */
    method SelectProducer(producer: Producer)
      requires Valid()
      modifies this`selectedProducer, this`storage, this`page
      ensures Valid()
      ensures selectedProducer == Some(producer) && page == Flavors
      ensures city == old(city) && cart == old(cart) && storage == Save(old(storage), city, cart)
    {
      selectedProducer := Some(producer);
      Persist();
      page := Flavors;
    }

    /** A flavour card: since the type is never selected, every product opened is a liquid. */
    method OpenFlavor(i: nat) returns (product: Product)
      requires Valid()
      ensures product == FlavorProduct(i, selectedProducer, selectedType)
      ensures product.kind == DEFAULT_KIND && product.stock == FLAVOR_STOCK
    {
      product := FlavorProduct(i, selectedProducer, selectedType);
    }

    /** `addToCart(item)`: merge into the first line with the same id and type, or append. */
    method AddToCart(item: LineItem)
      requires Valid()
      modifies this`cart, this`storage
      ensures Valid()
      ensures cart == Added(old(cart), item)
      ensures Count(cart) == Count(old(cart)) + item.qty
      ensures storage == Save(old(storage), city, cart)
      ensures city == old(city) && page == old(page) && selectedProducer == old(selectedProducer)
    {
      match FirstMatch(cart, item.id, item.kind) {
        case Some(i) =>
          cart := cart[i := cart[i].(qty := cart[i].qty + item.qty)];
        case None =>
          cart := cart + [item];
      }
      CountAfterAdd(old(cart), item);
      Persist();
    }

    /**
      The dialog's add button: the stepper's value after the presses, at the flat price,
      goes into the cart and the producers view shows again.
     */
    method AddFromProductDialog(product: Product, presses: seq<Button>) returns (qty: int)
      requires Valid()
      modifies this`cart, this`storage, this`page
      ensures Valid()
      ensures qty == Run(INITIAL, presses, product.stock)
      ensures product.stock >= 1 ==> 1 <= qty <= product.stock
      ensures cart == Added(old(cart), LineItem(product.id, product.name, product.producer, product.kind, qty, PRICE))
      ensures old(FlatPriced(cart)) ==> FlatPriced(cart) && Total(cart) == PRICE * Count(cart)
      ensures old(PositiveQuantities(cart)) && product.stock >= 1 ==>
        PositiveQuantities(cart) && Count(cart) >= |cart| >= 1
      ensures storage == Save(old(storage), city, cart)
      ensures city == old(city) && selectedProducer == old(selectedProducer) && page == Manufacturers
    {
      qty := Run(INITIAL, presses, product.stock);
      if product.stock >= 1 {
        QuantityInRange(presses, product.stock);
      }
      var item := LineItem(product.id, product.name, product.producer, product.kind, qty, PRICE);
      ghost var before := cart;
      AddToCart(item);
      if FlatPriced(before) {
        AddKeepsFlatPrice(before, item);
        TotalIsFlatPriceTimesCount(cart);
      }
      if PositiveQuantities(before) && product.stock >= 1 {
        AddKeepsQuantitiesPositive(before, item);
        CountAtLeastLines(cart);
      }
      page := Manufacturers;
    }

    /** The confirmed "clear cart": the cart is emptied and saved, the home view shows. */
    method ClearCartConfirmed()
      requires Valid()
      modifies this`cart, this`storage, this`page
      ensures Valid()
      ensures cart == [] && Count(cart) == 0 && Load(storage).cart == []
      ensures city == old(city) && page == Home && storage == Save(old(storage), city, [])
      ensures selectedProducer == old(selectedProducer)
    {
      cart := [];
      Persist();
      page := Home;
    }

    /**
      `placeOrder`: an empty cart only alerts; otherwise the user's answer decides; a
      confirmed order either closes the host app or, without that capability, clears the
      cart, saves it and shows the home view.
     */
    method PlaceOrder(confirmed: bool, hostCanClose: bool) returns (outcome: OrderOutcome)
      requires Valid()
      modifies this`cart, this`storage, this`page
      ensures Valid()
      ensures old(cart) == [] ==> outcome == EmptyCartAlert
      ensures old(cart) != [] && !confirmed ==> outcome == Declined
      ensures old(cart) != [] && confirmed ==> outcome == if hostCanClose then HostClosed else ConfirmedLocally
      ensures outcome == ConfirmedLocally ==> cart == [] && page == Home && storage == Save(old(storage), city, [])
      ensures outcome != ConfirmedLocally ==> cart == old(cart) && page == old(page) && storage == old(storage)
      ensures city == old(city) && selectedProducer == old(selectedProducer)
    {
      if cart == [] {
        return EmptyCartAlert;
      }
      if !confirmed {
        return Declined;
      }
      if hostCanClose {
        return HostClosed;
      }
      outcome := ConfirmedLocally;
      cart := [];
      Persist();
      page := Home;
    }

    /** The buttons with a target view, and the open-cart buttons: no guard on these. */
    method Navigate(target: Page)
      requires Valid()
      modifies this`page
      ensures Valid()
      ensures page == target
    {
      page := target;
    }
  }
}
