/** The Order entity and its order lines (ProductOrder, written OrderProduct by the order
    controller): an order keeps an insertion-ordered, duplicate-free collection of lines, and each
    line points back at the order that holds it. */
module Entities {
  import opened Outcomes
  import Seqs

  /** A timestamp; the model takes it as a value instead of reading the clock. */
  type Time = int

  /** One order line. Its own entity file is not part of this model: the fields and setters
      below are the ones the order controller and Order call. */
  class ProductOrder {
    var order: Order?
    var orderId: Option<int>
    var productId: Option<int>
    var quantity: Option<int>

    constructor ()
      ensures order == null && orderId == None && productId == None && quantity == None
    {
      order := null;
      orderId := None;
      productId := None;
      quantity := None;
    }

    method SetOrder(o: Order?)
      modifies this`order
      ensures order == o
    {
      order := o;
    }

    method SetOrderId(id: Option<int>)
      modifies this`orderId
      ensures orderId == id
    {
      orderId := id;
    }

    method SetProductId(id: Option<int>)
      modifies this`productId
      ensures productId == id
    {
      productId := id;
    }

    method SetQuantity(q: Option<int>)
      modifies this`quantity
      ensures quantity == q
    {
      quantity := q;
    }
  }

  /** The collection after addProduct(x): x appended at the end unless it is already there. */
  function WithLine(lines: seq<ProductOrder>, x: ProductOrder): (r: seq<ProductOrder>)
    ensures x in r
    ensures x in lines ==> r == lines
    ensures x !in lines ==> |r| == |lines| + 1 && r[..|lines|] == lines && r[|lines|] == x
  {
    if x in lines then lines else lines + [x]
  }

  /** Adding a line keeps the collection free of duplicates. */
  lemma AddKeepsDistinct(lines: seq<ProductOrder>, x: ProductOrder)
    requires Seqs.Distinct(lines)
    ensures Seqs.Distinct(WithLine(lines, x))
  {
    if x !in lines {
      Seqs.AppendKeepsDistinct(lines, x);
    }
  }

  /** Adding the same line twice is the same as adding it once. */
  lemma AddIdempotent(lines: seq<ProductOrder>, x: ProductOrder)
    ensures WithLine(WithLine(lines, x), x) == WithLine(lines, x)
  {
  }

  /** Adding a line that was not in the collection and then removing it gives back the
      original collection, same elements in the same order. */
  lemma RemoveUndoesAdd(lines: seq<ProductOrder>, x: ProductOrder)
    requires x !in lines
    ensures Seqs.RemoveElement(WithLine(lines, x), x) == lines
  {
    var r := lines + [x];
    assert Seqs.IndexOf(r, x) == |lines|;
    assert r[..|lines|] == lines;
  }

  class Order {
    var id: Option<int>
    var customerName: Option<string>
    var address: Option<string>
    var createdAt: Option<Time>
    var updatedAt: Option<Time>
    var products: seq<ProductOrder>

    /** The line collection holds each line at most once. */
    ghost predicate Valid()
      reads this`products
    {
      Seqs.Distinct(products)
    }

    constructor ()
      ensures Valid() && products == []
      ensures id == None && customerName == None && address == None
      ensures createdAt == None && updatedAt == None
    {
      id := None;
      customerName := None;
      address := None;
      createdAt := None;
      updatedAt := None;
      products := [];
    }

    method SetCustomerName(name: Option<string>) returns (self: Order)
      modifies this`customerName
      ensures self == this && customerName == name
    {
      customerName := name;
      self := this;
    }

    method SetAddress(a: Option<string>) returns (self: Order)
      modifies this`address
      ensures self == this && address == a
    {
      address := a;
      self := this;
    }

    method SetCreatedAt(t: Time) returns (self: Order)
      modifies this`createdAt
      ensures self == this && createdAt == Some(t)
    {
      createdAt := Some(t);
      self := this;
    }

    method SetUpdatedAt(t: Time) returns (self: Order)
      modifies this`updatedAt
      ensures self == this && updatedAt == Some(t)
    {
      updatedAt := Some(t);
      self := this;
    }

    /** Appends a line that is not yet held and points it back at this order; a line already
        held changes nothing. */
    method AddProduct(line: ProductOrder) returns (self: Order)
      requires Valid()
      modifies this`products, line`order
      ensures Valid() && self == this
      ensures products == WithLine(old(products), line)
      ensures line.order == if line in old(products) then old(line.order) else this
    {
      AddKeepsDistinct(products, line);
      if line !in products {
        products := products + [line];
        line.SetOrder(this);
      }
      self := this;
    }

    /** Takes a held line out of the collection and, when it still points at this order,
        clears its back-reference; a line not held changes nothing. */
    method RemoveProduct(line: ProductOrder) returns (self: Order)
      requires Valid()
      modifies this`products, line`order
      ensures Valid() && self == this
      ensures products == Seqs.RemoveElement(old(products), line)
      ensures line !in products
      ensures forall y :: y in products <==> y in old(products) && y != line
      ensures line.order == if line in old(products) && old(line.order) == this then null
                            else old(line.order)
    {
      Seqs.RemoveElementContents(products, line);
      var removed := line in products;
      products := Seqs.RemoveElement(products, line);
      if removed {
        if line.order == this {
          line.SetOrder(null);
        }
      }
      self := this;
    }
  }
}
