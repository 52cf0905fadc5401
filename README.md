# Canasta Familiar — a Dafny model of the basket service

Canasta Familiar is a small Spring Boot application for tracking a household
shopping basket. A user adds product lines (name, unit price, quantity). The
application shows the list, the total, the average unit price and the three
most expensive products, as a web page, as JSON and as a PDF report. All of
the decision-making lives in two Java classes, and this project models them:

- `ItemCanasta` (model/ItemCanasta.java) is a mutable holder of a name, a unit
  price and a quantity, with a subtotal computed from the current fields. In
  `item.dfy` it is the class `Items.ItemCanasta`, with both constructors, the
  three setters and `Subtotal`. The datatype `Items.Item` is the value of such
  an object at one moment.
- `CanastaService` (service/CanastaService.java) is the in-memory basket. In
  `canasta.dfy` it is the class `Canasta.CanastaService`, whose one field
  `items: seq<Item>` is the Java `ArrayList`. `AddItem` (`agregarItem`)
  validates and then appends; `Clear` (`limpiarCanasta`) empties the list. The
  read-only stream pipelines of the service are pure functions: `Validate`
  (`validarItem`), `SumSubtotals` (`calcularTotal`), `MeanPrice`
  (`calcularPromedio`) and `TopByPrice` (`obtenerProductosMasCostosos`). The
  class methods return them.
- `text.dfy` models the JDK behaviour the name check relies on. `String.trim()`
  drops the leading and trailing characters whose code is at most U+0020.
- `price_order.dfy` models `sorted(comparingDouble(getPrecio).reversed())`.
  This is a stable insertion sort, dearest first. Its correctness is stated as
  three facts: it returns a permutation, the result is non-increasing by price,
  and for every price the items of that price keep their input order.
- `scenarios.dfy` replays the unit tests of
  service/CanastaServiceTest.java against the contracts above.

Modelling choices:

- Prices are exact `real`s.
- Quantities are unbounded `int`s.
- A null name is `None`.
- The `IllegalArgumentException` thrown by `agregarItem` is the returned
  `Outcome.Fail(cause)`. Each cause has the exact message of the source
  (`AddError.Message`).

Two details of the code that the model follows:

- The name check uses `String.trim()`, which removes only characters at or
  below U+0020, not other Unicode whitespace. The model does the same.
- `obtenerItems` copies the list but shares the `ItemCanasta` objects in it
  (see "Left out").

## Model

| member | source | states |
|---|---|---|
| `Text.Trim` | src/main/java/com/uniremington/canasta_familiar/service/CanastaService.java:42 | `trim()` returns the middle slice of the name: every character dropped before or after it is at most U+0020, and the result is empty or starts and ends with a character above U+0020 |
| `Text.TrimEmptyIffBlank` | src/main/java/com/uniremington/canasta_familiar/service/CanastaService.java:42 | `name.trim().isEmpty()` holds exactly when every character of the name is at most U+0020 |
| `Items.Item.Subtotal` | src/main/java/com/uniremington/canasta_familiar/model/ItemCanasta.java:55-57 | price times quantity of one line: never negative when neither factor is, and 0 for a quantity of 0 |
| `Items.SubtotalAtLeastPrice` | src/main/java/com/uniremington/canasta_familiar/model/ItemCanasta.java:55-57 | a line with positive price and quantity has a subtotal of at least its unit price, hence positive |
| `Items.ItemCanasta.Empty` | src/main/java/com/uniremington/canasta_familiar/model/ItemCanasta.java:15-16 | the empty constructor leaves the Java defaults: null name, price 0, quantity 0 |
| `Items.ItemCanasta.constructor` | src/main/java/com/uniremington/canasta_familiar/model/ItemCanasta.java:19-23 | the full constructor stores exactly the given name, price and quantity, with no check |
| `Items.ItemCanasta.Subtotal` | src/main/java/com/uniremington/canasta_familiar/model/ItemCanasta.java:55-57 | the subtotal is the price times the quantity of the object's current field values, recomputed at each call |
| `Items.ItemCanasta.SetName` | src/main/java/com/uniremington/canasta_familiar/model/ItemCanasta.java:30-32 | sets the name; price and quantity unchanged |
| `Items.ItemCanasta.SetPrice` | src/main/java/com/uniremington/canasta_familiar/model/ItemCanasta.java:38-40 | sets the price; name and quantity unchanged; the subtotal follows the new price (not cached) |
| `Items.ItemCanasta.SetQty` | src/main/java/com/uniremington/canasta_familiar/model/ItemCanasta.java:46-48 | sets the quantity; name and price unchanged; the subtotal follows the new quantity (not cached) |
| `Canasta.AddError.Message` | src/main/java/com/uniremington/canasta_familiar/service/CanastaService.java:43-51 | the exception message of each refusal, which names the field at fault ("El nombre", "El precio", "La cantidad") |
| `Canasta.MessagesDistinguishCauses` | src/main/java/com/uniremington/canasta_familiar/service/CanastaService.java:42-52 | the three exception messages are pairwise different, so a message identifies the failing field |
| `Canasta.IsValid` | src/main/java/com/uniremington/canasta_familiar/service/CanastaService.java:42-52 | an item is valid exactly when none of the three guards fires: the name is non-null and `trim()` leaves something, the price is > 0 and the quantity is > 0 |
| `Canasta.Validate` | src/main/java/com/uniremington/canasta_familiar/service/CanastaService.java:41-53 | accepts exactly the items with a non-null, non-blank name, price > 0 and quantity > 0; otherwise reports the first failing check, in the order name, price, quantity |
| `Canasta.DefaultItemRejected` | src/main/java/com/uniremington/canasta_familiar/service/CanastaService.java:42-43 | an item left as the empty constructor made it is refused for its name |
| `Canasta.SumSubtotals` | src/main/java/com/uniremington/canasta_familiar/service/CanastaService.java:67-71 | the stream sum of the subtotals, left to right: 0 for an empty list, and not negative when no subtotal is |
| `Canasta.SumSubtotalsConcat` | src/main/java/com/uniremington/canasta_familiar/service/CanastaService.java:67-71 | the total of two lists placed end to end is the sum of their totals (so appending a line adds its subtotal) |
| `Canasta.TotalCoversPrices` | src/main/java/com/uniremington/canasta_familiar/service/CanastaService.java:67-71 | for stored (valid) items the total is at least the sum of unit prices, which is non-negative, and positive when there is an item |
| `Canasta.SumPrices` | src/main/java/com/uniremington/canasta_familiar/service/CanastaService.java:82-85 | the sum of the unit prices (`mapToDouble(getPrecio)`), not of the subtotals: 0 for an empty list |
| `Canasta.MeanPrice` | src/main/java/com/uniremington/canasta_familiar/service/CanastaService.java:77-86 | the average is 0 for an empty list, otherwise the value that times the count gives the sum of unit prices (not subtotals) |
| `Canasta.MeanBetween` | src/main/java/com/uniremington/canasta_familiar/service/CanastaService.java:82-85 | the average of a non-empty list lies between any lower and upper bound of its unit prices |
| `Canasta.MeanOfValidPositive` | src/main/java/com/uniremington/canasta_familiar/service/CanastaService.java:82-85 | a non-empty stored basket has a positive average |
| `PriceOrder.Insert` | src/main/java/com/uniremington/canasta_familiar/service/CanastaService.java:94 | one insertion step of the sort: puts the item in front of the first element that is not dearer, giving a list one longer |
| `PriceOrder.SortByPriceDesc` | src/main/java/com/uniremington/canasta_familiar/service/CanastaService.java:94 | the dearest-first order of `sorted(comparingDouble(getPrecio).reversed())` as an insertion sort; same length as its input |
| `PriceOrder.InsertSpec` | src/main/java/com/uniremington/canasta_familiar/service/CanastaService.java:94 | one insertion step adds exactly the new item and keeps a dearest-first list dearest first |
| `PriceOrder.SortSpec` | src/main/java/com/uniremington/canasta_familiar/service/CanastaService.java:94 | the price sort returns a permutation of its input that is non-increasing by price |
| `PriceOrder.InsertKeepsTies` | src/main/java/com/uniremington/canasta_familiar/service/CanastaService.java:94 | for every price, the items of that price after inserting x are those of x followed by the list, so x comes first among its own price and the others keep their order |
| `PriceOrder.SortIsStable` | src/main/java/com/uniremington/canasta_familiar/service/CanastaService.java:94 | stability: for every price, the items of that price leave the sort in the order they entered it |
| `Canasta.TopByPrice` | src/main/java/com/uniremington/canasta_familiar/service/CanastaService.java:92-97 | the first `n` items of the stable dearest-first order (`limit(n)`, with `n` = `TopCount` = 3 in the service): length min(n, count), and only stored items (a sub-multiset) |
| `Canasta.TopByPriceSorted` | src/main/java/com/uniremington/canasta_familiar/service/CanastaService.java:92-97 | the top list is non-increasing by price |
| `Canasta.TopByPriceLeavesNoDearer` | src/main/java/com/uniremington/canasta_familiar/service/CanastaService.java:92-97 | no item left out of the top list is dearer than any item in it |
| `Canasta.TopByPriceKeepsTieOrder` | src/main/java/com/uniremington/canasta_familiar/service/CanastaService.java:92-97 | for every price, the top list holds the first-added items of that price, in insertion order |
| `Canasta.CanastaService.constructor` | src/main/java/com/uniremington/canasta_familiar/service/CanastaService.java:24 | a new service starts with an empty list |
| `Canasta.CanastaService.AddItem` | src/main/java/com/uniremington/canasta_familiar/service/CanastaService.java:31-34 | returns the validation outcome; on success appends the item as the last element (count + 1, earlier items unchanged, total grows by its subtotal); on failure the list is exactly as before; every stored item stays valid |
| `Canasta.CanastaService.Items` | src/main/java/com/uniremington/canasta_familiar/service/CanastaService.java:59-61 | returns the stored sequence, in insertion order, and changes nothing |
| `Canasta.CanastaService.Total` | src/main/java/com/uniremington/canasta_familiar/service/CanastaService.java:67-71 | returns the sum of price × quantity over the stored items: 0 when empty, never below the sum of unit prices |
| `Canasta.CanastaService.Average` | src/main/java/com/uniremington/canasta_familiar/service/CanastaService.java:77-86 | returns the mean unit price: exactly 0 when empty, positive otherwise |
| `Canasta.CanastaService.MostExpensive` | src/main/java/com/uniremington/canasta_familiar/service/CanastaService.java:92-97 | returns the first `TopCount` (the constant 3 of `limit(3)`) of the stable dearest-first order, of length min(3, count), sorted, drawn from the stored items; the stored list is not changed |
| `Canasta.CanastaService.Clear` | src/main/java/com/uniremington/canasta_familiar/service/CanastaService.java:102-104 | empties the list, so count and total are 0; the result does not depend on the old state, so clearing twice is the same as clearing once |
| `Canasta.CanastaService.Count` | src/main/java/com/uniremington/canasta_familiar/service/CanastaService.java:110-112 | returns the length of the stored sequence |
| `Scenarios.TotalExample` | src/test/java/com/uniremington/canasta_familiar/service/CanastaServiceTest.java:39-50 | 5000 × 2 plus 3000 × 1 totals 13000 |
| `Scenarios.AverageExample` | src/test/java/com/uniremington/canasta_familiar/service/CanastaServiceTest.java:99-111 | unit prices 1000, 2000 and 3000 average 2000 |
| `Scenarios.SortExample` | src/test/java/com/uniremington/canasta_familiar/service/CanastaServiceTest.java:127-142 | prices 1000, 5000, 3000, 8000 sort to the 4th, 2nd, 3rd and 1st item |
| `Scenarios.TopExample` | src/test/java/com/uniremington/canasta_familiar/service/CanastaServiceTest.java:127-142 | for those prices the top three are the 4th, 2nd and 3rd item |

## Left out

- PdfService.java is not part of this model. It is iText layout, fonts,
  colours, dates and page headers: presentation over a foreign library. Its
  catch-all that returns an empty byte array is I/O error handling.
- CanastaController.java and CanastaRestController.java are not part of this
  model. They are Spring MVC/REST routing, flash messages, HTTP headers and
  JSON maps that only call the service.
- CanastaFamiliarApplication.java (the Spring Boot bootstrap) is not part of
  this model.
- `ItemCanasta.toString` and the getters are not modelled. The first is
  string formatting of doubles; the getters just read a field, which the
  model reads directly.
- IEEE-754 doubles are not modelled. Prices, totals and averages are exact
  reals. A NaN price, which would pass the `<= 0` check, and rounding in the
  stream sum and average are outside the model.
- Java `int` overflow of `cantidad` is not modelled. Quantities are unbounded
  integers.
- `agregarItem(null)` is not modelled. It throws a NullPointerException in
  the source, and a Dafny reference of type `ItemCanasta` is never null.
- Aliasing of items is not modelled. The service stores the value of the item
  at the moment it is added. In the source the list holds the caller's
  `ItemCanasta` object, and `obtenerItems` copies only the list. A caller who
  still holds the object could change a stored item through a setter after
  it was added, and even make it invalid. The invariant "every stored item is
  valid" (`CanastaService.Valid`) therefore holds for the model, not for such
  a caller of the source.
- Thread safety of the shared singleton service across requests is not
  modelled. The model is sequential.
