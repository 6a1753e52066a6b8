/** The product endpoints: create, find one, list all, update and delete, over the product
    rows of a Database. A thrown not-found exception is an Err result. */
module ProductController {
  import opened Outcomes
  import opened Php
  import Seqs
  import opened Store

  /** What findProduct and findAllProduct report of one product. */
  datatype ProductView = ProductView(id: int, name: Value, image: Value, price: Value)

  function View(id: int, p: Product): ProductView
  {
    ProductView(id, p.name, p.image, p.price)
  }

  /** The product a create request describes, or MissingParameters when name, image or price
      is empty. The quantity is not read from the request. */
  function NewProduct(payload: Payload): (r: Result<Product>)
    ensures r.Err? <==> IsEmpty(Field(payload, "name")) || IsEmpty(Field(payload, "image"))
                        || IsEmpty(Field(payload, "price"))
    ensures r.Err? ==> r.error == MissingParameters
    ensures r.Ok? ==> && r.value.name == payload["name"] && r.value.image == payload["image"]
                      && r.value.price == payload["price"] && r.value.quantity == None
  {
    var name := Field(payload, "name");
    var image := Field(payload, "image");
    var price := Field(payload, "price");
    if IsEmpty(name) || IsEmpty(image) || IsEmpty(price) then Err(MissingParameters)
    else Ok(Product(name, image, price, None))
  }

  /** A price of 0 is rejected, whether sent as a number or as a string. */
  lemma ZeroPriceRejected(name: Value, image: Value, price: Value)
    requires price == Int(0) || price == Str("0")
    ensures NewProduct(map["name" := name, "image" := image, "price" := price]).Err?
  {
  }

  /** A field the request leaves out reads as null, so create rejects the request. */
  lemma MissingFieldsRejected(payload: Payload)
    ensures "name" !in payload || "image" !in payload || "price" !in payload
            ==> NewProduct(payload) == Err(MissingParameters)
  {
  }

  /** createProduct: validates, then stores one new product under a fresh id; on failure
      nothing is stored. */
  method CreateProduct(db: Database, payload: Payload) returns (r: Result<int>)
    requires db.Valid()
    modifies db
    ensures db.Valid()
    ensures r.Err? <==> NewProduct(payload).Err?
    ensures r.Err? ==> r.error == MissingParameters && db.products == old(db.products)
                       && db.productIds == old(db.productIds)
                       && db.nextProductId == old(db.nextProductId)
    ensures r.Ok? ==> && r.value == old(db.nextProductId) && r.value !in old(db.products)
                      && db.products == old(db.products)[r.value := NewProduct(payload).value]
                      && db.productIds == old(db.productIds) + [r.value]
                      && db.nextProductId > r.value
    ensures r.Ok? ==> FindProduct(db, r.value) == Ok(ProductView(r.value, payload["name"],
                                                                  payload["image"], payload["price"]))
    ensures db.orders == old(db.orders) && db.nextOrderId == old(db.nextOrderId)
    ensures db.lines == old(db.lines)
  {
    var p := NewProduct(payload);
    if p.Err? {
      return Err(p.error);
    }
    var id := db.AddProduct(p.value);
    r := Ok(id);
  }

  /** findProduct: the id, name, image and price of the product with this id, or NoProduct. */
  function FindProduct(db: Database, id: int): (r: Result<ProductView>)
    reads db
    ensures r.Err? <==> id !in db.products
    ensures r.Err? ==> r.error == NoProduct(id)
    ensures r.Ok? ==> && r.value.id == id && r.value.name == db.products[id].name
                      && r.value.image == db.products[id].image
                      && r.value.price == db.products[id].price
  {
    match db.FindOneBy(id)
    case None => Err(NoProduct(id))
    case Some(p) => Ok(View(id, p))
  }

  /** findAllProduct: one entry per stored product, in repository order, each exactly what
      findProduct reports for it. */
  method FindAllProduct(db: Database) returns (data: seq<ProductView>)
    requires db.Valid()
    ensures |data| == |db.productIds|
    ensures forall i :: 0 <= i < |data| ==> data[i].id == db.productIds[i]
    ensures forall i :: 0 <= i < |data| ==> FindProduct(db, data[i].id) == Ok(data[i])
    ensures forall id :: id in db.products <==> exists i :: 0 <= i < |data| && data[i].id == id
  {
    data := [];
    var i := 0;
    while i < |db.productIds|
      invariant 0 <= i <= |db.productIds|
      invariant |data| == i
      invariant forall k :: 0 <= k < i ==> data[k].id == db.productIds[k]
      invariant forall k :: 0 <= k < i ==> FindProduct(db, data[k].id) == Ok(data[k])
    {
      var id := db.productIds[i];
      assert id in db.products;
      data := data + [View(id, db.products[id])];
      i := i + 1;
    }
    forall id | id in db.products ensures exists i :: 0 <= i < |data| && data[i].id == id {
      var k :| 0 <= k < |db.productIds| && db.productIds[k] == id;
      assert data[k].id == id;
    }
  }

  /** The product after updateProduct's three guarded setters: a non-empty name replaces the
      name, a non-empty image replaces the image, and a non-empty price ALSO replaces the image
      (the setter called is setImage), after the image step; the price never changes. */
  function ApplyUpdate(p: Product, payload: Payload): (r: Product)
    ensures r.price == p.price && r.quantity == p.quantity
    ensures r.name == if IsEmpty(Field(payload, "name")) then p.name else payload["name"]
    ensures r.image == if !IsEmpty(Field(payload, "price")) then payload["price"]
                       else if !IsEmpty(Field(payload, "image")) then payload["image"]
                       else p.image
  {
    var named := if IsEmpty(Field(payload, "name")) then p
                 else p.(name := Field(payload, "name"));
    var imaged := if IsEmpty(Field(payload, "image")) then named
                  else named.(image := Field(payload, "image"));
    if IsEmpty(Field(payload, "price")) then imaged
    else imaged.(image := Field(payload, "price"))
  }

  /** Applying the same update twice gives the same product as applying it once. */
  lemma UpdateIdempotent(p: Product, payload: Payload)
    ensures ApplyUpdate(ApplyUpdate(p, payload), payload) == ApplyUpdate(p, payload)
  {
  }

  /** The image survives an update when both the image and the price fields are empty. */
  lemma UpdateKeepsImage(p: Product, payload: Payload)
    ensures ApplyUpdate(p, payload).image == p.image
            <== IsEmpty(Field(payload, "image")) && IsEmpty(Field(payload, "price"))
  {
  }

  /** An update whose image field is empty still replaces the image when it carries a price. */
  lemma PriceOverwritesImage(p: Product, price: Value)
    requires !IsEmpty(price)
    ensures ApplyUpdate(p, map["image" := Str(""), "price" := price]).image == price
    ensures ApplyUpdate(p, map["image" := Str(""), "price" := price]).price == p.price
  {
  }

  /** A field the update request leaves out reads as null, so the product field it guards is
      left alone. */
  lemma MissingFieldsKept(p: Product, payload: Payload)
    ensures "name" !in payload ==> ApplyUpdate(p, payload).name == p.name
    ensures "image" !in payload && "price" !in payload ==> ApplyUpdate(p, payload).image == p.image
  {
  }

  /** updateProduct: on an absent id fails and changes nothing; otherwise stores and returns
      the updated product. */
  method UpdateProduct(db: Database, id: int, payload: Payload) returns (r: Result<Product>)
    requires db.Valid()
    modifies db
    ensures db.Valid()
    ensures id !in old(db.products) ==> r == Err(NoProduct(id)) && db.products == old(db.products)
    ensures id in old(db.products) ==> && r == Ok(ApplyUpdate(old(db.products)[id], payload))
                                       && db.products == old(db.products)[id := r.value]
    ensures db.productIds == old(db.productIds) && db.nextProductId == old(db.nextProductId)
    ensures db.orders == old(db.orders) && db.nextOrderId == old(db.nextOrderId)
    ensures db.lines == old(db.lines)
  {
    var found := db.FindOneBy(id);
    if found.None? {
      return Err(NoProduct(id));
    }
    var updated := ApplyUpdate(found.value, payload);
    db.SaveProduct(id, updated);
    r := Ok(updated);
  }

  /** deleteProduct: on an absent id fails and changes nothing; otherwise removes that product
      and leaves every other one as it was. */
  method DeleteProduct(db: Database, id: int) returns (r: Result<int>)
    requires db.Valid()
    modifies db
    ensures db.Valid()
    ensures id !in old(db.products) ==> && r == Err(NoProduct(id))
                                        && db.products == old(db.products)
                                        && db.productIds == old(db.productIds)
    ensures id in old(db.products) ==> && r == Ok(id) && db.products == old(db.products) - {id}
                                       && db.productIds == Seqs.RemoveElement(old(db.productIds), id)
                                       && FindProduct(db, id) == Err(NoProduct(id))
    ensures forall other :: other in old(db.products) && other != id ==>
              other in db.products && db.products[other] == old(db.products)[other]
    ensures db.nextProductId == old(db.nextProductId)
    ensures db.orders == old(db.orders) && db.nextOrderId == old(db.nextOrderId)
    ensures db.lines == old(db.lines)
  {
    var found := db.FindOneBy(id);
    if found.None? {
      return Err(NoProduct(id));
    }
    db.RemoveProduct(id);
    r := Ok(id);
  }
}
