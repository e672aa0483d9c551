# VapeJuiceNRW cart and state layer, in Dafny

A model of the state layer in `app.js`. That file is the single-page client for a
chat mini-app. It lets a user pick a delivery city, browse producers and flavours, and
keep a cart in browser storage. The model covers these parts of it:

- the global `state` object (city, cart lines, selections) together with the current view;
- `addToCart`: merge into the first line with the same `id` and `type`, or append;
- the badge count and the receipt total, which are `reduce` folds;
- the quantity stepper of the product dialog;
- the continue guard on the home view;
- clearing the cart, and `placeOrder` with its guard and its fallback;
- `save()` and the start-up load, over an abstract two-key store.

Modules:

- `CartLines` (cart.dfy) holds the cart as a value: `LineItem`, `FirstMatch`
  (`Array.prototype.find`), `Added` (the merge-or-append step), `Count` and `Total`.
  It also holds the lemmas about one add and about any sequence of adds.
- `Stepper` (stepper.dfy) holds the minus/plus clamps and the presses from the opening
  value 1.
- `Persistence` (persistence.dfy) holds `Save` and `Load` over `map<string, StoredValue>`
  under the keys `vj_city` and `vj_cart`.
- `Receipt` (receipt.dfy) holds the figures of the receipt view.
- `App` (app.dfy) holds the class `AppState`. Its fields are those of `state`, plus the
  view and the store. Its methods are the handlers. `Valid()` says two things. First,
  `selectedType` and `selectedFlavor` are still `null`, because nothing assigns them.
  Second, the store holds what a start-up would load.
- `Wrappers` (wrappers.dfy) holds `Option` and JavaScript truthiness of a nullable string.

The source's `type` field is called `kind` here, because `type` is a Dafny keyword.

## Model

| member | source | states |
|---|---|---|
| CartLines.FirstMatch | app.js:150 | the index of the first line whose id and type both equal the item's; none exactly when no line has that key |
| CartLines.Added | app.js:148-155 | one add adds no line when the item's key is present and appends exactly the item when it is not; what happens to each line, the count and the total is stated by the lemmas below |
| CartLines.AddedAll | app.js:148-155 | a sequence of adds never removes a line and adds at most one line per item |
| CartLines.Count | app.js:159 | the badge fold, the sum of the quantities; specified by CountAfterAdd, CountAfterAddingAll, CountAtLeastLines and TotalIsFlatPriceTimesCount |
| CartLines.Total | app.js:184 | the receipt fold, the sum of quantity times price; specified by TotalAfterAppend, TotalAfterMerge, TotalIsFlatPriceTimesCount and Receipt.AmountsAddUpToTotal |
| CartLines.AddMergesIntoExisting | app.js:150-152 | when a line has the item's key, only the first such line changes, its quantity grows by the item's, and the length stays the same |
| CartLines.AddAppendsNew | app.js:153-155 | when no line has the item's key, the item is appended at the end and every earlier line keeps its place |
| CartLines.AddKeepsKeysDistinct | app.js:148-155 | if the (id, type) pairs are pairwise distinct before an add, they are distinct after it |
| CartLines.AddedKeys | app.js:148-155 | an add grows the set of (id, type) keys by exactly the item's key |
| CartLines.CountAfterAdd | app.js:148-159 | after an add the badge count is the old count plus the item's quantity, whether it merged or appended |
| CartLines.TotalAfterAppend | app.js:153-155 | when the item is appended, the total grows by the item's quantity times its own price |
| CartLines.TotalAfterMerge | app.js:150-152 | when the item merges into the first line with its key, the total grows by the item's quantity times that existing line's price, since only `qty` is updated |
| CartLines.SumByUpdate | app.js:159 | replacing one line changes a reduce fold by exactly that line's old and new terms |
| CartLines.SumByAppend | app.js:159 | appending a line adds that line's term to a reduce fold |
| CartLines.TotalIsFlatPriceTimesCount | app.js:184 | when every line carries the flat price 15, the receipt total is 15 times the badge count |
| CartLines.AddKeepsFlatPrice | app.js:6 | an item at the flat price added to a flat-priced cart leaves it flat-priced |
| CartLines.AddKeepsQuantitiesPositive | app.js:150-155 | if every stored quantity is at least 1 and so is the item's, this stays true after the add |
| CartLines.CountAtLeastLines | app.js:159 | when every quantity is at least 1, the badge count is at least the number of lines, so a non-empty cart never shows a badge of 0 |
| CartLines.CountAfterAddingAll | app.js:148-159 | after any sequence of adds, the badge count is the starting count plus the sum of all quantities passed in |
| CartLines.KeysAfterAddingAll | app.js:148-155 | after any sequence of adds, the keys stay distinct and are the starting keys plus the keys passed in: equal keys merge, different keys stay apart |
| CartLines.SameKeyTwiceMerges | app.js:150-152 | adding f1/liquid with quantity 2 and then with quantity 3 leaves one line with quantity 5 |
| CartLines.DifferentTypeKeptApart | app.js:150-155 | adding f1/liquid and then f1/pod leaves two lines |
| Stepper.Minus | app.js:122 | the minus button never goes below 1, and above 1 it steps down by one |
| Stepper.Plus | app.js:126 | the plus button never goes above the stock, and below the stock it steps up by one |
| Stepper.Press | app.js:120-127 | one button press: minus or plus as above; specified through Minus, Plus and RunStaysInRange |
| Stepper.Run | app.js:116-127 | the stepper value after a sequence of presses; specified by RunStaysInRange, QuantityInRange and EveryQuantityReachable |
| Stepper.RunStaysInRange | app.js:120-127 | from a value in [1, stock], no sequence of presses leaves [1, stock] |
| Stepper.QuantityInRange | app.js:116-127 | from the opening value 1, with a stock of at least 1, any presses give a quantity in [1, stock] |
| Stepper.EveryQuantityReachable | app.js:124-127 | every value from the current one up to the stock is reached by plus presses alone |
| Persistence.Normalized | app.js:8-17 | the city as a start-up sees it after a save: a set, non-empty city is kept, null and the empty string become null |
| Persistence.Save | app.js:15-17 | a save writes `city` or the empty string under `vj_city` and the cart under `vj_cart`, and leaves every other key alone |
| Persistence.Load | app.js:8-9 | a start-up reads a stored non-empty city back as that city, an absent or empty city as null, the stored cart as it is, and an absent cart (or a value of the wrong kind) as empty |
| Persistence.LoadAfterSave | app.js:8-17 | loading after a save gives back the saved cart, and gives back the city unless it was null or empty, in which case it reads as null |
| Persistence.SaveOfLoadIsStable | app.js:8-17 | saving what a start-up loaded and loading again gives the same city and cart |
| Receipt.Amounts | app.js:177-182 | one amount per cart line, in order, each the line's quantity times its price |
| Receipt.ReceiptOf | app.js:163-190 | the receipt shows the empty-cart message exactly when the cart is empty, and otherwise one amount of quantity times price per line and the fold total; the city label is the city or a dash |
| Receipt.AmountsAddUpToTotal | app.js:177-184 | the per-line amounts on the receipt add up to the total printed below them |
| Receipt.ReceiptTotalIsFlat | app.js:184 | for a non-empty flat-priced cart, the receipt total is 15 times the badge count |
| App.DecimalString | app.js:99-100 | the `${i}` rendering of a card number: decimal digits whose value is the number itself |
| App.FlavorProduct | app.js:97-104 | a flavour card's product has the id `f` followed by the card number, stock 12, the selected producer's name or a dash when none is selected, and the selected type when it is a non-empty string or else `liquid` |
| App.FlavorIdsDistinct | app.js:97-104 | different flavour cards give different ids, so their lines never merge in the cart |
| App.AppState.constructor | app.js:7-13 | start-up loads the city and cart from the store, selects nothing, and shows the home view |
| App.AppState.Persist | app.js:15-17 | save writes only the city and the cart, so a start-up would load the current city (normalized) and cart |
| App.AppState.SelectCity | app.js:41-46 | a city click overwrites the city and saves; the cart and the view are unchanged |
| App.AppState.Continue | app.js:49-56 | continue is blocked, and the view is unchanged, exactly when no city is set; otherwise the view becomes the producers |
| App.AppState.SelectProducer | app.js:77-83 | a producer click makes it the selected producer, saves the unchanged city and cart, and shows the flavours view |
| App.AppState.OpenFlavor | app.js:97-104 | since no handler sets the type, every product a flavour card opens is a liquid with stock 12 |
| App.AppState.AddToCart | app.js:148-157 | the cart becomes the merge-or-append of the item, the count grows by the item's quantity, the store is saved, and the city and view are unchanged |
| App.AppState.AddFromProductDialog | app.js:116-144 | the added quantity is the stepper's value, in [1, stock]; the line carries price 15; a flat-priced cart stays flat with total 15 times count; positive quantities stay positive and the badge is at least 1; the store is saved; the city and selected producer stay; the producers view shows |
| App.AppState.ClearCartConfirmed | app.js:208-213 | the cart becomes empty and the count 0, the saved cart is empty, the city and the selected producer are unchanged, and the home view shows |
| App.AppState.PlaceOrder | app.js:244-262 | an empty cart only alerts; a declined confirmation changes nothing; with the host close capability nothing else changes; otherwise the cart is cleared and saved and the home view shows; the city and the selected producer never change |
| App.AppState.Navigate | app.js:271-285 | the buttons with a target view and the open-cart buttons move to their view without any guard |

## Left out

- DOM rendering, `showPage`, the catalog grids, modals and `closeAllModals`, and `toast` with its timers. These are UI over the browser document. The view is kept only as the `Page` value.
- The `PRODUCERS` placeholder catalog and its image URLs. They have no behaviour. `Producer` keeps only the id and the name.
- `alert`, `confirm` and the host close capability are foreign calls. The user's answer and whether the host can close are the boolean parameters of `App.AppState.PlaceOrder`.
- App.AppState.PlaceOrder: does not model the `catch` branch. That branch runs when the host close call, or a save in the fallback, throws.
- `copyReceiptText` and its clipboard promise. Its total is the same fold as the receipt's, `Total`.
- The date and `toFixed(2)` formatting on the receipt. They depend on the clock and the locale, so totals are integers and the rows are amounts only.
- `JSON.parse`/`JSON.stringify` and `localStorage` itself. The store is a map whose cart entry holds the line sequence directly.
- Persistence.Load: a stored cart that fails to parse, which would throw in the source, is not modelled. A value of the wrong kind under a key is read as absent.
- App.AppState.AddFromProductDialog: the quantity is the value the stepper buttons produce. Typing directly into the quantity field is not modelled. Typed input can give 0, a negative number, a value above the stock, a fraction or NaN, and the clamps never see it because they run only on button presses. So the [1, stock] range and the "quantities at least 1" invariant hold only for values the buttons produce. The page markup is not part of this model.
- JavaScript numbers are modelled as unbounded integers. Quantities and prices stay far below 2^53, so rounding does not arise.
- Object identity is not modelled. `found.qty += item.qty` updates the line object inside the array, and no other reference to that object exists, so replacing the line's value in the sequence is equivalent.
