/**
 * ProductRepository: the products table, keyed by product id, with create, read, conditional
 * update, delete and batch read.
 */
module ProductRepository {

  import opened Wrappers

  datatype Product = Product(
    id: string,
    productName: string,
    code: string,
    price: int,
    model: string,
    productUrl: string)

  datatype ProductError = ProductNotFound | ConditionalCheckFailed

  /**
   * The stored products for the requested ids, once per distinct id, in request order;
   * ids with no product are skipped.
   */
  function FoundInOrder(ids: seq<string>, items: map<string, Product>): (r: seq<Product>)
    ensures |r| <= |ids|
    decreases |ids|
  {
    if ids == [] then []
    else
      var n := |ids| - 1;
      FoundInOrder(ids[..n], items) + (if ids[n] in items && ids[n] !in ids[..n] then [items[ids[n]]] else [])
  }

  /**
   * What a batch read returns: only stored products whose id was requested, every requested
   * stored product, and none twice.
   */
  lemma {:induction false} FoundInOrderSpec(ids: seq<string>, items: map<string, Product>)
    requires forall id :: id in items ==> items[id].id == id
    ensures forall p :: p in FoundInOrder(ids, items) ==> p.id in ids && p.id in items && items[p.id] == p
    ensures forall id :: id in ids && id in items ==> items[id] in FoundInOrder(ids, items)
    ensures forall i, j :: 0 <= i < j < |FoundInOrder(ids, items)| ==>
      FoundInOrder(ids, items)[i].id != FoundInOrder(ids, items)[j].id
    decreases |ids|
  {
    if ids != [] {
      var n := |ids| - 1;
      FoundInOrderSpec(ids[..n], items);
      assert ids == ids[..n] + [ids[n]];
    }
  }

  class ProductRepository {
    var items: map<string, Product>

    /** Every product is stored under its own id. */
    ghost predicate Valid()
      reads this
    {
      forall id :: id in items ==> items[id].id == id
    }

    constructor ()
      ensures Valid() && items == map[]
    {
      items := map[];
    }

    /** A scan: every stored product exactly once. */
    method GetAllProducts() returns (r: seq<Product>)
      requires Valid()
      ensures forall p :: p in r <==> p in items.Values
      ensures |r| == |items|
      ensures forall i, j :: 0 <= i < j < |r| ==> r[i].id != r[j].id
    {
      r := [];
      var rest := items.Keys;
      while rest != {}
        invariant rest <= items.Keys
        invariant forall p :: p in r <==> p in items.Values && p.id !in rest
        invariant |r| + |rest| == |items.Keys|
        invariant forall i, j :: 0 <= i < j < |r| ==> r[i].id != r[j].id
        decreases rest
      {
        var id :| id in rest;
        forall p | p in r ensures p.id != id {
        }
        r := r + [items[id]];
        rest := rest - {id};
      }
      assert |items.Keys| == |items|;
    }

    /** The product stored under an id, or ProductNotFound. */
    method GetProductById(productId: string) returns (r: Result<Product, ProductError>)
      requires Valid()
      ensures r.Ok? <==> productId in items
      ensures r.Ok? ==> r.value == items[productId] && r.value.id == productId
      ensures r.Err? ==> r.error == ProductNotFound
    {
      if productId in items {
        r := Ok(items[productId]);
      } else {
        r := Err(ProductNotFound);
      }
    }

    /**
     * Stores the product under a freshly generated id, whatever id it came with, and
     * returns it with that id.
     */
    method CreateProduct(product: Product, freshId: string) returns (r: Product)
      requires Valid()
      requires freshId !in items
      modifies this
      ensures Valid()
      ensures r == product.(id := freshId)
      ensures items == old(items)[freshId := r]
      ensures |items| == |old(items)| + 1
    {
      r := product.(id := freshId);
      items := items[freshId := r];
    }

    /** Removes a product and returns what was stored; ProductNotFound, with nothing removed, otherwise. */
    method DeleteProduct(productId: string) returns (r: Result<Product, ProductError>)
      requires Valid()
      modifies this
      ensures Valid()
      ensures r.Ok? <==> productId in old(items)
      ensures r.Ok? ==> r.value == old(items)[productId] && items == old(items) - {productId}
      ensures r.Err? ==> r.error == ProductNotFound && items == old(items)
    {
      if productId in items {
        r := Ok(items[productId]);
        items := items - {productId};
      } else {
        r := Err(ProductNotFound);
      }
    }

    /**
     * Overwrites name, code, price, model and url of an existing product, on the condition
     * that the id exists; returns the new values with the id.
     */
    method UpdateProduct(productId: string, product: Product) returns (r: Result<Product, ProductError>)
      requires Valid()
      modifies this
      ensures Valid()
      ensures r.Ok? <==> productId in old(items)
      ensures r.Ok? ==> r.value == product.(id := productId) && items == old(items)[productId := r.value]
      ensures r.Err? ==> r.error == ConditionalCheckFailed && items == old(items)
    {
      if productId in items {
        var updated := items[productId].(productName := product.productName, code := product.code,
                                          price := product.price, model := product.model,
                                          productUrl := product.productUrl);
        items := items[productId := updated];
        r := Ok(updated);
      } else {
        r := Err(ConditionalCheckFailed);
      }
    }

    /** A batch read of the requested ids; absent ids are skipped and a repeated id is read once. */
    method GetProductsByIds(productIds: seq<string>) returns (r: seq<Product>)
      requires Valid()
      ensures r == FoundInOrder(productIds, items)
      ensures forall p :: p in r ==> p.id in productIds && p.id in items && items[p.id] == p
      ensures forall id :: id in productIds && id in items ==> items[id] in r
      ensures forall i, j :: 0 <= i < j < |r| ==> r[i].id != r[j].id
    {
      r := [];
      var i := 0;
      while i < |productIds|
        invariant 0 <= i <= |productIds|
        invariant r == FoundInOrder(productIds[..i], items)
      {
        assert productIds[..i + 1][..i] == productIds[..i];
        var id := productIds[i];
        if id in items && id !in productIds[..i] {
          r := r + [items[id]];
        }
        i := i + 1;
      }
      assert productIds[..i] == productIds;
      FoundInOrderSpec(productIds, items);
    }
  }
}
