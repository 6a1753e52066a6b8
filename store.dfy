/** The persisted state behind the repositories: products by id (with the order findAll lists
    them in), order rows and order-line rows, and the counters that hand out fresh ids. Each
    repository call used by the controllers, with its flush, is one method here. */
module Store {
  import opened Outcomes
  import opened Php
  import Seqs
  import Entities

  /** A product row. Name, image and price hold whatever value the request carried; quantity is
      None until something sets it. */
  datatype Product = Product(name: Value, image: Value, price: Value, quantity: Option<int>)

  datatype OrderRow = OrderRow(id: int, customerName: Option<string>, address: Option<string>,
                               createdAt: Option<Entities.Time>, updatedAt: Option<Entities.Time>)

  /** The persisted fields of one order line. */
  datatype LineRow = LineRow(orderId: Option<int>, productId: Option<int>, quantity: Option<int>)

  /** PHP arithmetic on a quantity: an unset (null) quantity counts as 0. */
  function QuantityValue(q: Option<int>): int
  {
    if q.Some? then q.value else 0
  }

  class Database {
    var products: map<int, Product>
    var productIds: seq<int>
    var nextProductId: int
    var orders: seq<OrderRow>
    var nextOrderId: int
    var lines: seq<LineRow>

    /** productIds lists every stored product once, in the order findAll returns them, and the
        counters are above every id handed out so far. */
    ghost predicate Valid()
      reads this
    {
      && Seqs.Distinct(productIds)
      && (forall id :: id in products <==> id in productIds)
      && (forall id :: id in products ==> id < nextProductId)
      && (forall i :: 0 <= i < |orders| ==> orders[i].id < nextOrderId)
    }

    constructor ()
      ensures Valid()
      ensures products == map[] && productIds == [] && orders == [] && lines == []
    {
      products := map[];
      productIds := [];
      nextProductId := 1;
      orders := [];
      nextOrderId := 1;
      lines := [];
    }

    /** findOneBy(['id' => id]) and find(id): the stored product, or none. */
    function FindOneBy(id: int): Option<Product>
      reads this
    {
      if id in products then Some(products[id]) else None
    }

    /** ProductRepository::add($product, true): stores the product under a fresh id. */
    method AddProduct(p: Product) returns (id: int)
      requires Valid()
      modifies this
      ensures Valid()
      ensures id == old(nextProductId) && id !in old(products)
      ensures products == old(products)[id := p] && productIds == old(productIds) + [id]
      ensures nextProductId > id
      ensures orders == old(orders) && nextOrderId == old(nextOrderId) && lines == old(lines)
    {
      id := nextProductId;
      assert id !in productIds;
      Seqs.AppendKeepsDistinct(productIds, id);
      products := products[id := p];
      productIds := productIds + [id];
      nextProductId := nextProductId + 1;
    }

    /** Writes back a changed product: ProductRepository::updateProduct, or the flush that
        persists a product changed through its setters. */
    method SaveProduct(id: int, p: Product)
      requires Valid() && id in products
      modifies this
      ensures Valid()
      ensures products == old(products)[id := p]
      ensures productIds == old(productIds) && nextProductId == old(nextProductId)
      ensures orders == old(orders) && nextOrderId == old(nextOrderId) && lines == old(lines)
    {
      products := products[id := p];
    }

    /** ProductRepository::remove($product, true). */
    method RemoveProduct(id: int)
      requires Valid() && id in products
      modifies this
      ensures Valid()
      ensures products == old(products) - {id}
      ensures productIds == Seqs.RemoveElement(old(productIds), id)
      ensures nextProductId == old(nextProductId)
      ensures orders == old(orders) && nextOrderId == old(nextOrderId) && lines == old(lines)
    {
      Seqs.RemoveElementContents(productIds, id);
      products := products - {id};
      productIds := Seqs.RemoveElement(productIds, id);
    }

    /** OrderRepository::add($order, true): stores the order's fields under a fresh id and
        gives the order that id. */
    method AddOrder(o: Entities.Order)
      requires Valid()
      modifies this, o`id
      ensures Valid()
      ensures o.id == Some(old(nextOrderId))
      ensures orders == old(orders) + [OrderRow(old(nextOrderId), o.customerName, o.address,
                                                o.createdAt, o.updatedAt)]
      ensures nextOrderId > old(nextOrderId)
      ensures products == old(products) && productIds == old(productIds)
      ensures nextProductId == old(nextProductId) && lines == old(lines)
    {
      o.id := Some(nextOrderId);
      orders := orders + [OrderRow(nextOrderId, o.customerName, o.address, o.createdAt, o.updatedAt)];
      nextOrderId := nextOrderId + 1;
    }

    /** OrderProductRepository::add($orderProduct, true): appends the line's fields. */
    method AddLine(line: Entities.ProductOrder)
      requires Valid()
      modifies this
      ensures Valid()
      ensures lines == old(lines) + [LineRow(line.orderId, line.productId, line.quantity)]
      ensures products == old(products) && productIds == old(productIds)
      ensures nextProductId == old(nextProductId)
      ensures orders == old(orders) && nextOrderId == old(nextOrderId)
    {
      lines := lines + [LineRow(line.orderId, line.productId, line.quantity)];
    }
  }
}
