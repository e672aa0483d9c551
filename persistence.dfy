/**
  The two-key persisted store behind `save()` and the initial load of `state`.
  The browser store and its JSON encoding are abstracted to a map whose cart entry holds
  the line sequence itself.
 */
module Persistence {
  import opened Wrappers
  import opened CartLines

  const CITY_KEY: string := "vj_city"
  const CART_KEY: string := "vj_cart"

  datatype StoredValue = Text(text: string) | Lines(lines: seq<LineItem>)

  type Store = map<string, StoredValue>

  /** What a start-up reads back: the city and the cart. Selections are not part of it. */
  datatype Snapshot = Snapshot(city: Option<string>, cart: seq<LineItem>)

  /** The city as a start-up sees it after a save: an empty name reads back as absent. */
  function Normalized(city: Option<string>): (r: Option<string>)
    ensures Truthy(city) ==> r == city
    ensures !Truthy(city) ==> r == None
  {
    if Truthy(city) then city else None
  }

  /** `save()`: writes `city || ''` and the cart under their keys; every other key is untouched. */
  function Save(store: Store, city: Option<string>, cart: seq<LineItem>): (r: Store)
    ensures r.Keys == store.Keys + {CITY_KEY, CART_KEY}
    ensures r[CITY_KEY] == Text(if Truthy(city) then city.value else "")
    ensures r[CART_KEY] == Lines(cart)
    ensures forall k :: k in store && k != CITY_KEY && k != CART_KEY ==> r[k] == store[k]
  {
    store[CITY_KEY := Text(if city.Some? then city.value else "")][CART_KEY := Lines(cart)]
  }

  /**
    The initial load: `getItem('vj_city') || null` and the stored cart, or `[]` when none is
    stored. A value of the other kind under a key is read as absent.
   */
  function Load(store: Store): (r: Snapshot)
    ensures r.city.Some? ==> CITY_KEY in store && store[CITY_KEY] == Text(r.city.value)
    ensures !Truthy(r.city) ==> r.city == None
    ensures CITY_KEY !in store ==> r.city == None
    ensures CART_KEY !in store ==> r.cart == []
    ensures CART_KEY in store && store[CART_KEY].Lines? ==> r.cart == store[CART_KEY].lines
    ensures CITY_KEY in store && store[CITY_KEY].Text? && store[CITY_KEY].text != "" ==>
      r.city == Some(store[CITY_KEY].text)
    ensures CART_KEY in store && !store[CART_KEY].Lines? ==> r.cart == []
  {
    var city := if CITY_KEY in store && store[CITY_KEY].Text? && store[CITY_KEY].text != ""
                then Some(store[CITY_KEY].text) else None;
    var cart := if CART_KEY in store && store[CART_KEY].Lines? then store[CART_KEY].lines else [];
    Snapshot(city, cart)
  }

  /** A save followed by a start-up gives back the cart, and the city up to the empty-name asymmetry. */
  lemma LoadAfterSave(store: Store, city: Option<string>, cart: seq<LineItem>)
    ensures Load(Save(store, city, cart)) == Snapshot(Normalized(city), cart)
  {
  }

  /** Loading is stable: the snapshot a start-up reads, saved again, reads back unchanged. */
  lemma SaveOfLoadIsStable(store: Store)
    ensures Load(Save(store, Load(store).city, Load(store).cart)) == Load(store)
  {
  }
}
