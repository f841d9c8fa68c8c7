/**
 * ProductsFetch: the read side of the products API. GET /products lists the table and
 * /products/{id} reads one product.
 */
module ProductsFetch {

  import opened Wrappers
  import opened ProductRepository

  const ProductsResource := "/products"
  const ProductResource := "/products/{id}"
  const NotFoundMessage := "Product not found"
  /** What the runtime reports when the handler calls a method the repository does not have. */
  const MissingMethodMessage := "productRepository.getProductbyId is not a function"

  datatype FetchRequest = FetchRequest(resource: string, httpMethod: string, productId: string)

  datatype FetchBody = ProductList(products: seq<Product>) | OneProduct(product: Product) | Message(text: string)

  datatype FetchResponse = FetchResponse(statusCode: int, body: FetchBody)

  /**
   * /products/{id} as the handler evidently intends it: the stored product with 200, or the
   * repository's not-found error with 404.
   */
  function FetchById(items: map<string, Product>, productId: string): (r: FetchResponse)
    ensures r.statusCode == 200 <==> productId in items
    ensures r.statusCode == 200 ==> r.body == OneProduct(items[productId])
    ensures r.statusCode != 200 ==> r == FetchResponse(404, Message(NotFoundMessage))
  {
    if productId in items then FetchResponse(200, OneProduct(items[productId]))
    else FetchResponse(404, Message(NotFoundMessage))
  }

  /**
   * /products/{id} as written: the handler calls getProductbyId, which the repository does
   * not define, so the call throws a TypeError that the handler's catch turns into 404.
   */
  function FetchByIdAsWritten(items: map<string, Product>, productId: string): (r: FetchResponse)
    ensures r.statusCode == 404
  {
    FetchResponse(404, Message(MissingMethodMessage))
  }

  /** As written, a stored product is never returned: the read answers 404 where 200 was meant. */
  lemma StoredProductUnreachableAsWritten(items: map<string, Product>, productId: string)
    requires productId in items
    ensures FetchById(items, productId).statusCode == 200
    ensures FetchByIdAsWritten(items, productId).statusCode == 404
  {
  }

  /** The handler, with the id read going through GetProductById. Nothing is modified. */
  method Handler(repository: ProductRepository, request: FetchRequest) returns (response: FetchResponse)
    requires repository.Valid()
    ensures request.resource == ProductsResource && request.httpMethod == "GET" ==>
      response.statusCode == 200 && response.body.ProductList? &&
      (forall p :: p in response.body.products <==> p in repository.items.Values) &&
      |response.body.products| == |repository.items|
    ensures request.resource == ProductResource ==> response == FetchById(repository.items, request.productId)
    ensures request.resource != ProductResource && (request.resource != ProductsResource || request.httpMethod != "GET") ==>
      response == FetchResponse(400, Message("Bad Request"))
  {
    if request.resource == ProductsResource {
      if request.httpMethod == "GET" {
        var products := repository.GetAllProducts();
        return FetchResponse(200, ProductList(products));
      }
    } else if request.resource == ProductResource {
      var found := repository.GetProductById(request.productId);
      if found.Ok? {
        return FetchResponse(200, OneProduct(found.value));
      } else {
        return FetchResponse(404, Message(NotFoundMessage));
      }
    }
    return FetchResponse(400, Message("Bad Request"));
  }
}
