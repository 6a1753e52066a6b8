# Shopping-cart backend: order placement and product catalogue

This project models the stateful core of a small Symfony/Doctrine shopping-cart backend and proves
properties of that model in Dafny.

- **Order placement** (`OrderController::createOrder`). One order header is stored first, with
  customer "Lorium", address "Epsume 35/2" and two clock readings. The submitted items are then
  processed in order. For each item the code builds a line, looks the product up, sets its
  quantity to existing − itemQty and stores the line. Nothing floors the stock or checks the sign
  of itemQty, and there is no transaction. An item naming an absent product ends the call. The
  order row and the earlier items' deductions and lines stay stored.
- **The `Order` entity** (`src/Entity/Order.php`). A class with its setters and an
  insertion-ordered, duplicate-free collection of order lines. `addProduct` appends a line and
  points it back at the order. `removeProduct` takes a line out and clears its back-reference only
  if it still points at this order.
- **The product catalogue** (`ProductController`). Create, find, find all, update and delete over
  the stored products. Fields are guarded by PHP's `empty()`. The update's third guard calls
  `setImage` with the price, so a non-empty price overwrites the image and the price itself never
  changes. The model keeps that behaviour.

Layout, one module per file:

| file | module | holds |
|---|---|---|
| outcomes.dfy | `Outcomes` | `Option`, the controllers' `Error`s, `Result` |
| php.dfy | `Php` | decoded JSON `Value`s, `IsEmpty` (PHP `empty()`: null, false, 0, "", "0"), request `Payload` and `Field` (a missing key reads as null) |
| seqs.dfy | `Seqs` | `Distinct`, `IndexOf`, `RemoveElement` (Doctrine `ArrayCollection::removeElement`: drops the first occurrence, keeps order) |
| entities.dfy | `Entities` | classes `Order` and `ProductOrder` (the order line) |
| store.dfy | `Store` | class `Database`: the product map, the order `findAll` lists products in, the id counters, the order rows and line rows, and one method per repository call |
| product_controller.dfy | `ProductController` | the five product endpoints |
| order_controller.dfy | `OrderController` | `createOrder` and its specification functions `KnownPrefix`, `SumQty`, `Deduct`, `LinesFor` |

The order controller's line entity `OrderProduct` (with `setOrderId`/`setProductId`/`setQuantity`)
and the `ProductOrder` that `Order` maps are modelled as one class, `Entities.ProductOrder`. A
stored line is the `Store.LineRow` snapshot of that object's fields.

The model keeps the code's behaviour where it differs from what a reader might expect:
- placement is not all-or-nothing;
- create neither reads nor checks quantity;
- find returns id, name, image and price only;
- an update with an empty image but a non-empty price changes the image (`UpdateKeepsImage`,
  `PriceOverwritesImage`).

## Model

| member | source | states |
|---|---|---|
| OrderController.CreateOrder | src/Controller/OrderController.php:41-76 | stores exactly one order row (new id, "Lorium", "Epsume 35/2", both timestamps) whether or not an item fails; processes `KnownPrefix` items, so it returns Created exactly when every item names a stored product, else Crashed at the first absent one; products become `Deduct` of the processed prefix and each product's quantity drops by `SumQty` of that prefix; exactly one line row per processed item is appended, in order, with the order's id, item id and itemQty; product ids and the id counter are untouched |
| OrderController.PlaceItems | src/Controller/OrderController.php:55-70 | the foreach, proved with the loop invariant that after k items each product's quantity is its initial quantity minus `SumQty` of the first k items, the products equal `Deduct` of those k items, and the stored lines are the old ones plus one row per item in order; no order rows change |
| OrderController.PlaceItem | src/Controller/OrderController.php:56-69 | one pass: succeeds iff the product exists; on success the product's quantity becomes existing − itemQty (no floor) and one line row (order id, item id, itemQty) is appended; on an absent product nothing is stored |
| OrderController.NewOrder | src/Controller/OrderController.php:47-51 | a fresh order with customer "Lorium", address "Epsume 35/2", both timestamps set, no id and no lines |
| OrderController.NewLine | src/Controller/OrderController.php:56-59 | a fresh line carrying the order id, the item's id and its itemQty, with no back-reference |
| OrderController.KnownPrefix | src/Controller/OrderController.php:55-64 | the number of leading items all naming stored products, followed either by the end of the list or by an item naming an absent one |
| OrderController.Deduct | src/Controller/OrderController.php:55-67 | deducting items one by one never adds or removes a product (same key set) |
| OrderController.LinesFor | src/Controller/OrderController.php:56-69 | one line row per item, at the item's position, holding the order id, item id and itemQty |
| OrderController.DeductQuantity | src/Controller/OrderController.php:61-67 | after deducting a list of items, each product's quantity is initial − the sum of the itemQtys naming it (cumulative over repeated ids, no floor, any sign); its name, image and price are unchanged; a product no item names is exactly as before |
| OrderController.NoStockFloor | src/Controller/OrderController.php:64-67 | stock 2 less itemQty 5 gives −3; itemQty −4 raises stock 2 to 6 |
| OrderController.SumQtyAppend | src/Controller/OrderController.php:55-70 | the summed quantity over a concatenation is the sum over the parts |
| OrderController.PlaceTwice | src/Controller/OrderController.php:55-70 | two placements in a row lower each product's quantity by the summed itemQtys of both item lists |
| OrderController.Deducted | src/Controller/OrderController.php:64-67 | one deduction: the quantity is set to existing − itemQty (an unset quantity counting as 0) and name, image and price are kept |
| OrderController.DeductAppend | src/Controller/OrderController.php:55-70 | deducting list a and then list b gives the same products as deducting a + b (two placements compose like one) |
| OrderController.StepOne | src/Controller/OrderController.php:55-70 | processing item k extends the deductions, quantity sums and line rows of the first k items by exactly that item |
| Entities.ProductOrder.constructor | src/Controller/OrderController.php:56 | a new line has no order, order id, product id or quantity |
| Entities.ProductOrder.SetOrderId | src/Controller/OrderController.php:57 | sets only the order id |
| Entities.ProductOrder.SetProductId | src/Controller/OrderController.php:58 | sets only the product id |
| Entities.ProductOrder.SetQuantity | src/Controller/OrderController.php:59 | sets only the quantity |
| Entities.ProductOrder.SetOrder | src/Entity/Order.php:105 | sets only the back-reference to the owning order (null clears it, as at line 116) |
| Entities.Order.constructor | src/Entity/Order.php:34-37 | a new order has an empty line collection and no id, name, address or timestamps |
| Entities.Order.SetCustomerName | src/Entity/Order.php:50-55 | sets only the customer name and returns the same object |
| Entities.Order.SetAddress | src/Entity/Order.php:62-67 | sets only the address and returns the same object |
| Entities.Order.SetCreatedAt | src/Entity/Order.php:74-79 | sets only createdAt and returns the same object |
| Entities.Order.SetUpdatedAt | src/Entity/Order.php:86-91 | sets only updatedAt and returns the same object |
| Entities.Order.AddProduct | src/Entity/Order.php:101-109 | keeps the collection duplicate-free; a line not held is appended at the end and its back-reference set to this order; a held line changes nothing; returns the same object |
| Entities.Order.RemoveProduct | src/Entity/Order.php:111-121 | a held line is removed (others kept in order) and its back-reference cleared only if it points at this order; an absent line changes nothing; afterwards the line is not held; returns the same object |
| Entities.WithLine | src/Entity/Order.php:101-106 | the collection after addProduct: the line is in it, a held line leaves it unchanged, a new line is appended after the old contents |
| Entities.AddKeepsDistinct | src/Entity/Order.php:103-104 | addProduct preserves duplicate-freedom |
| Entities.AddIdempotent | src/Entity/Order.php:103 | adding the same line twice equals adding it once |
| Entities.RemoveUndoesAdd | src/Entity/Order.php:101-121 | adding a line not held and then removing it restores the original collection, same elements in the same order |
| Seqs.RemoveElement | src/Entity/Order.php:113 | removal takes out exactly one copy of a held element (one shorter, multiset minus that element) and leaves a sequence without it unchanged |
| Seqs.RemoveElementContents | src/Entity/Order.php:113 | on a duplicate-free collection, removal leaves exactly the other elements, still duplicate-free |
| Seqs.IndexOf | src/Entity/Order.php:113 | the position removal works at holds the element, and no earlier position does |
| Php.EmptyValues | src/Controller/ProductController.php:30 | `empty()` holds of exactly null, false, 0, "" and "0"; "00", " " and −1 are not empty |
| ProductController.NewProduct | src/Controller/ProductController.php:25-39 | fails with MissingParameters iff name, image or price is empty under `empty()`; otherwise a product with exactly those three values and no quantity |
| ProductController.ZeroPriceRejected | src/Controller/ProductController.php:30-34 | a price of 0 or "0" is rejected |
| ProductController.MissingFieldsRejected | src/Controller/ProductController.php:25-34 | a create request missing name, image or price is rejected with MissingParameters |
| ProductController.CreateProduct | src/Controller/ProductController.php:21-44 | on failure stores nothing and leaves both id counters as they were; on success stores exactly one product under a fresh id, appended to the listing order, and finding that id returns the given name, image and price; the order rows, line rows and order counter never change |
| ProductController.FindProduct | src/Controller/ProductController.php:47-65 | NoProduct exactly for an absent id; otherwise that product's id, name, image and price |
| ProductController.FindAllProduct | src/Controller/ProductController.php:68-84 | one entry per stored product, in repository order, each equal to what FindProduct returns for its id |
| ProductController.ApplyUpdate | src/Controller/ProductController.php:97-99 | a non-empty name replaces the name; a non-empty price replaces the image, otherwise a non-empty image does; price and quantity never change |
| ProductController.UpdateIdempotent | src/Controller/ProductController.php:97-99 | applying a payload twice gives the same product as applying it once |
| ProductController.UpdateKeepsImage | src/Controller/ProductController.php:98-99 | the image is kept when both image and price fields are empty |
| ProductController.PriceOverwritesImage | src/Controller/ProductController.php:99 | an empty image with a non-empty price still replaces the image with the price, and the price stays as it was |
| ProductController.MissingFieldsKept | src/Controller/ProductController.php:97-99 | an update missing name keeps the name, and one missing both image and price keeps the image |
| ProductController.UpdateProduct | src/Controller/ProductController.php:87-110 | an absent id fails and changes nothing; otherwise the stored product becomes `ApplyUpdate` of it and is returned; no other product, listed id, id counter or row changes |
| ProductController.DeleteProduct | src/Controller/ProductController.php:113-126 | an absent id fails and changes nothing; otherwise removes exactly that product (find then fails) and leaves every other product as it was; neither id counter moves, so a later create never reuses the deleted id |
| Store.Database.AddProduct | src/Controller/ProductController.php:41 | stores the product under a fresh id above all earlier ones and appends it to the listing order |
| Store.Database.SaveProduct | src/Controller/ProductController.php:101 | replaces only the stored product under that id; listing order, counters, order rows and line rows unchanged |
| Store.Database.RemoveProduct | src/Controller/ProductController.php:123 | removes only that product from the map and from the listing order; counters, order rows and line rows unchanged |
| Store.Database.AddOrder | src/Controller/OrderController.php:53 | appends one order row with the order's fields under a fresh id and gives the order that id |
| Store.Database.AddLine | src/Controller/OrderController.php:69 | appends one line row with the line's fields, nothing else |

## Left out

- HTTP routing, request decoding (`json_decode`, `toArray`) and the JSON responses and status
  codes. Requests are already-decoded payloads or item lists. A thrown exception is an `Err`
  result, or `Crashed` for the null dereference in createOrder.
- `public/index.php`: CORS headers and kernel bootstrap.
- Doctrine mechanics: flushes, the identity map, `ManagerRegistry`, id generation. Each becomes a
  map or sequence update plus a counter in `Store.Database`. The product repository's
  `updateProduct` method is not part of this model; it is taken to store and return the product.
  Line rows get no id of their own.
- The Product entity file is not part of this model. Name, image and price hold the decoded value
  as sent. Quantity is an optional integer that create leaves unset, and PHP arithmetic reads an
  unset quantity as 0.
- Floats and JSON arrays as field values: `Value` covers null, booleans, integers and strings.
- Item fields `id` and `itemQty` are taken to be integers. A missing or non-numeric field in a
  submitted item is not modelled.
- `new \DateTime("now")`: each timestamp is a parameter. Nothing relates createdAt to updatedAt.
- Seqs.RemoveElement: the collection's keys are not modelled, only element order. `removeElement`
  unsets one key and leaves the other keys as they were; the sequence closes the gap.
- The getters of `Order`: Dafny reads the fields directly.
- Quantities are unbounded integers: PHP's 64-bit integer overflow to float at
  src/Controller/OrderController.php:65 and the width of the quantity column are not modelled,
  so `DeductQuantity` holds of inputs where PHP would produce a float.
- Concurrency, transactions and locking: the code has none, so each controller call is one
  sequential method.
