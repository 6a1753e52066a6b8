/** Order placement: createOrder stores one order header, then walks the submitted items in
    order; for each it builds a line, looks the product up, lowers its quantity by the item's
    quantity and stores the line. There is no stock floor, no check on the quantity's sign, and
    no transaction: an absent product stops the walk with the order and the earlier items'
    effects already stored. */
module OrderController {
  import opened Outcomes
  import opened Store
  import Entities

  /** One submitted item, already decoded: {"id": ..., "itemQty": ...}. */
  datatype Item = Item(id: int, itemQty: int)

  /** Created: the 201 response. Crashed(at): the call died at item `at`, whose product is
      absent (the source dereferences the null product). */
  datatype Placement = Created | Crashed(at: nat)

  const CustomerName: string := "Lorium"
  const Address: string := "Epsume 35/2"

  /** How many leading items name a stored product: the items createOrder gets through. */
  function KnownPrefix(keys: set<int>, items: seq<Item>): (n: nat)
    ensures n <= |items|
    ensures forall j :: 0 <= j < n ==> items[j].id in keys
    ensures n < |items| ==> items[n].id !in keys
  {
    if items == [] || items[0].id !in keys then 0 else 1 + KnownPrefix(keys, items[1..])
  }

  /** The total itemQty of the items that name product id. */
  function SumQty(items: seq<Item>, id: int): int
  {
    if items == [] then 0
    else
      var last := items[|items| - 1];
      SumQty(items[..|items| - 1], id) + (if last.id == id then last.itemQty else 0)
  }

  /** One deduction: existing quantity minus the item's quantity, with no floor. */
  function Deducted(p: Product, qty: int): (r: Product)
    ensures r.quantity.Some? && QuantityValue(r.quantity) == QuantityValue(p.quantity) - qty
    ensures r.name == p.name && r.image == p.image && r.price == p.price
  {
    p.(quantity := Some(QuantityValue(p.quantity) - qty))
  }

  /** The products after deducting the items one after another, in submission order. */
  function Deduct(stock: map<int, Product>, items: seq<Item>): (r: map<int, Product>)
    requires forall j :: 0 <= j < |items| ==> items[j].id in stock
    ensures r.Keys == stock.Keys
  {
    if items == [] then stock
    else
      var last := items[|items| - 1];
      var before := Deduct(stock, items[..|items| - 1]);
      before[last.id := Deducted(before[last.id], last.itemQty)]
  }

  /** The line rows createOrder stores for these items, one per item, in order. */
  function LinesFor(orderId: int, items: seq<Item>): (r: seq<LineRow>)
    ensures |r| == |items|
    ensures forall j :: 0 <= j < |items| ==>
              r[j] == LineRow(Some(orderId), Some(items[j].id), Some(items[j].itemQty))
  {
    if items == [] then []
    else
      var last := items[|items| - 1];
      LinesFor(orderId, items[..|items| - 1]) + [LineRow(Some(orderId), Some(last.id), Some(last.itemQty))]
  }

  /** Deducting items one by one lowers each product's quantity by the total quantity of the
      items naming it (an unset quantity counting as 0), touches nothing else of it, and leaves
      a product no item names exactly as it was. */
  lemma {:induction false} DeductQuantity(stock: map<int, Product>, items: seq<Item>, id: int)
    requires forall j :: 0 <= j < |items| ==> items[j].id in stock
    requires id in stock
    ensures Deduct(stock, items)[id].name == stock[id].name
    ensures Deduct(stock, items)[id].image == stock[id].image
    ensures Deduct(stock, items)[id].price == stock[id].price
    ensures QuantityValue(Deduct(stock, items)[id].quantity)
            == QuantityValue(stock[id].quantity) - SumQty(items, id)
    ensures (forall j :: 0 <= j < |items| ==> items[j].id != id) ==> Deduct(stock, items)[id] == stock[id]
  {
    if items != [] {
      DeductQuantity(stock, items[..|items| - 1], id);
    }
  }

  /** Nothing floors the stock or checks the sign of itemQty: 2 units less 5 leaves -3, and an
      itemQty of -4 adds 4 units. */
  lemma NoStockFloor(p: Product)
    requires p.quantity == Some(2)
    ensures Deduct(map[1 := p], [Item(1, 5)])[1].quantity == Some(-3)
    ensures Deduct(map[1 := p], [Item(1, -4)])[1].quantity == Some(6)
  {
    assert [Item(1, 5)][..0] == [];
    assert [Item(1, -4)][..0] == [];
  }

  /** The quantities of two item lists add up over their concatenation. */
  lemma {:induction false} SumQtyAppend(a: seq<Item>, b: seq<Item>, id: int)
    ensures SumQty(a + b, id) == SumQty(a, id) + SumQty(b, id)
  {
    if b == [] {
      assert a + b == a;
    } else {
      assert (a + b)[..|a + b| - 1] == a + b[..|b| - 1];
      SumQtyAppend(a, b[..|b| - 1], id);
    }
  }

  /** Placing a then b deducts the same stock as placing a + b at once. */
  lemma {:induction false} DeductAppend(stock: map<int, Product>, a: seq<Item>, b: seq<Item>)
    requires forall j :: 0 <= j < |a| ==> a[j].id in stock
    requires forall j :: 0 <= j < |b| ==> b[j].id in stock
    ensures Deduct(Deduct(stock, a), b) == Deduct(stock, a + b)
  {
    if b == [] {
      assert a + b == a;
    } else {
      assert (a + b)[..|a + b| - 1] == a + b[..|b| - 1];
      DeductAppend(stock, a, b[..|b| - 1]);
    }
  }

  /** Two placements in a row lower a product's quantity by the total of both item lists. */
  lemma PlaceTwice(stock: map<int, Product>, a: seq<Item>, b: seq<Item>, id: int)
    requires forall j :: 0 <= j < |a| ==> a[j].id in stock
    requires forall j :: 0 <= j < |b| ==> b[j].id in stock
    requires id in stock
    ensures QuantityValue(Deduct(Deduct(stock, a), b)[id].quantity)
            == QuantityValue(stock[id].quantity) - SumQty(a, id) - SumQty(b, id)
  {
    DeductAppend(stock, a, b);
    assert forall j :: 0 <= j < |a + b| ==> (a + b)[j].id in stock by {
      forall j | 0 <= j < |a + b| ensures (a + b)[j].id in stock {
        if j >= |a| {
          assert (a + b)[j] == b[j - |a|];
        }
      }
    }
    DeductQuantity(stock, a + b, id);
    SumQtyAppend(a, b, id);
  }

  /** One more item: the prefix of length k + 1 extends the prefix of length k by items[k]. */
  lemma {:induction false} StepOne(
    stock: map<int, Product>, items: seq<Item>, k: nat, orderId: int, stored: seq<LineRow>)
    requires k < |items|
    requires forall j :: 0 <= j <= k ==> items[j].id in stock
    ensures var before := Deduct(stock, items[..k]);
            Deduct(stock, items[..k + 1])
            == before[items[k].id := Deducted(before[items[k].id], items[k].itemQty)]
    ensures forall id :: SumQty(items[..k + 1], id)
                         == SumQty(items[..k], id) + (if items[k].id == id then items[k].itemQty else 0)
    ensures stored + LinesFor(orderId, items[..k + 1])
            == stored + LinesFor(orderId, items[..k]) + [LineRow(Some(orderId), Some(items[k].id), Some(items[k].itemQty))]
  {
    assert items[..k + 1][..k] == items[..k];
  }

  /** The walk stops at the first item whose product is absent. */
  lemma StopsAt(keys: set<int>, items: seq<Item>, k: nat)
    requires k <= |items|
    requires forall j :: 0 <= j < k ==> items[j].id in keys
    requires k == |items| || items[k].id !in keys
    ensures KnownPrefix(keys, items) == k
  {
  }

  /** The order header createOrder builds: fixed customer name and address, and the
      two clock readings. */
  method NewOrder(createdAt: Entities.Time, updatedAt: Entities.Time) returns (order: Entities.Order)
    ensures fresh(order) && order.Valid() && order.products == [] && order.id == None
    ensures order.customerName == Some(CustomerName) && order.address == Some(Address)
    ensures order.createdAt == Some(createdAt) && order.updatedAt == Some(updatedAt)
  {
    order := new Entities.Order();
    var self := order.SetCustomerName(Some(CustomerName));
    self := order.SetAddress(Some(Address));
    self := order.SetCreatedAt(createdAt);
    self := order.SetUpdatedAt(updatedAt);
  }

  /** The line createOrder builds for one item, before looking up its product. */
  method NewLine(orderId: Option<int>, item: Item) returns (line: Entities.ProductOrder)
    ensures fresh(line) && line.order == null && line.orderId == orderId
    ensures line.productId == Some(item.id) && line.quantity == Some(item.itemQty)
  {
    line := new Entities.ProductOrder();
    line.SetOrderId(orderId);
    line.SetProductId(Some(item.id));
    line.SetQuantity(Some(item.itemQty));
  }

  /** One pass of createOrder's foreach: build the item's line, look its product up, and
      when it exists lower its quantity by itemQty and store the line. When it is absent
      (found is false) nothing is stored. */
  method PlaceItem(db: Database, order: Entities.Order, item: Item) returns (found: bool)
    requires db.Valid()
    modifies db
    ensures db.Valid()
    ensures found <==> item.id in old(db.products)
    ensures !found ==> db.products == old(db.products) && db.lines == old(db.lines)
    ensures found ==> && db.products == old(db.products)[item.id :=
                                          Deducted(old(db.products)[item.id], item.itemQty)]
                      && db.lines == old(db.lines) + [LineRow(order.id, Some(item.id), Some(item.itemQty))]
    ensures db.orders == old(db.orders) && db.nextOrderId == old(db.nextOrderId)
    ensures db.productIds == old(db.productIds) && db.nextProductId == old(db.nextProductId)
  {
    var line := NewLine(order.id, item);
    var product := db.FindOneBy(item.id);
    if product.None? {
      return false;
    }
    var existingQuantity := QuantityValue(product.value.quantity);
    var afterDeductQuantity := existingQuantity - item.itemQty;
    db.SaveProduct(item.id, product.value.(quantity := Some(afterDeductQuantity)));
    db.AddLine(line);
    found := true;
  }

  /** The foreach of createOrder, for an order already stored under orderId: items are
      processed up to the first one naming an absent product; each processed item has been
      deducted from its product and has its line stored, and nothing is stored for the item
      that failed or those after it. */
  method PlaceItems(db: Database, order: Entities.Order, ghost orderId: int, items: seq<Item>)
    returns (r: Placement)
    requires db.Valid() && order.id == Some(orderId)
    modifies db
    ensures db.Valid()
    ensures var n := KnownPrefix(old(db.products).Keys, items);
            && (r == Created <==> n == |items|)
            && (r.Crashed? ==> r.at == n)
            && db.products == Deduct(old(db.products), items[..n])
            && db.lines == old(db.lines) + LinesFor(orderId, items[..n])
    ensures var n := KnownPrefix(old(db.products).Keys, items);
            forall id :: id in old(db.products) ==>
              QuantityValue(db.products[id].quantity)
              == QuantityValue(old(db.products)[id].quantity) - SumQty(items[..n], id)
    ensures db.orders == old(db.orders) && db.nextOrderId == old(db.nextOrderId)
    ensures db.productIds == old(db.productIds) && db.nextProductId == old(db.nextProductId)
  {
    ghost var initial := db.products;
    var k := 0;
    r := Created;
    while k < |items|
      invariant 0 <= k <= |items|
      invariant forall j :: 0 <= j < k ==> items[j].id in initial
      invariant db.Valid()
      invariant db.products == Deduct(initial, items[..k])
      invariant forall id :: id in initial ==>
                  QuantityValue(db.products[id].quantity)
                  == QuantityValue(initial[id].quantity) - SumQty(items[..k], id)
      invariant db.lines == old(db.lines) + LinesFor(orderId, items[..k])
      invariant db.orders == old(db.orders) && db.nextOrderId == old(db.nextOrderId)
      invariant db.productIds == old(db.productIds) && db.nextProductId == old(db.nextProductId)
    {
      var found := PlaceItem(db, order, items[k]);
      if !found {
        StopsAt(initial.Keys, items, k);
        return Crashed(k);
      }
      StepOne(initial, items, k, orderId, old(db.lines));
      k := k + 1;
    }
    StopsAt(initial.Keys, items, k);
  }

  /** createOrder. The order row (customer "Lorium", address "Epsume 35/2", the two clock
      readings) is stored first, whatever follows; then PlaceItems walks the items. */
  method CreateOrder(db: Database, items: seq<Item>, createdAt: Entities.Time, updatedAt: Entities.Time)
    returns (r: Placement)
    requires db.Valid()
    modifies db
    ensures db.Valid()
    ensures db.orders == old(db.orders) + [OrderRow(old(db.nextOrderId), Some(CustomerName),
                                                    Some(Address), Some(createdAt), Some(updatedAt))]
    ensures var n := KnownPrefix(old(db.products).Keys, items);
            && (r == Created <==> n == |items|)
            && (r.Crashed? ==> r.at == n)
            && db.products == Deduct(old(db.products), items[..n])
            && db.lines == old(db.lines) + LinesFor(old(db.nextOrderId), items[..n])
    ensures var n := KnownPrefix(old(db.products).Keys, items);
            forall id :: id in old(db.products) ==>
              QuantityValue(db.products[id].quantity)
              == QuantityValue(old(db.products)[id].quantity) - SumQty(items[..n], id)
    ensures db.productIds == old(db.productIds) && db.nextProductId == old(db.nextProductId)
  {
    var order := NewOrder(createdAt, updatedAt);
    db.AddOrder(order);
    r := PlaceItems(db, order, old(db.nextOrderId), items);
  }
}
