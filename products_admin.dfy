/**
 * ProductsAdmin: the write side of the products API. POST-style creation on /products,
 * update and delete on /products/{id}, everything else a bad request.
 */
module ProductsAdmin {

  import opened Wrappers
  import opened ProductRepository

  const ProductsResource := "/products"
  const ProductResource := "/products/{id}"

  /** An API Gateway request, with its body already parsed as a product. */
  datatype AdminRequest = AdminRequest(resource: string, httpMethod: string, productId: string, body: Product)

  /** The status code and the product the response body carries, if any. */
  datatype AdminResponse = AdminResponse(statusCode: int, product: Option<Product>)

  datatype AdminRoute = CreateRoute | UpdateRoute | DeleteRoute | BadRequestRoute

  /** /products creates whatever the method; /products/{id} updates on PUT and deletes on DELETE. */
  function RouteOf(resource: string, httpMethod: string): (r: AdminRoute)
    ensures r == CreateRoute <==> resource == ProductsResource
    ensures r == UpdateRoute <==> resource == ProductResource && httpMethod == "PUT"
    ensures r == DeleteRoute <==> resource == ProductResource && httpMethod == "DELETE"
  {
    if resource == ProductsResource then CreateRoute
    else if resource == ProductResource && httpMethod == "PUT" then UpdateRoute
    else if resource == ProductResource && httpMethod == "DELETE" then DeleteRoute
    else BadRequestRoute
  }

  /** The status code a route answers with, given whether the repository found the product. */
  function StatusOf(route: AdminRoute, found: bool): (code: int)
    ensures code == 400 <==> route == BadRequestRoute
    ensures code == 404 <==> (route == UpdateRoute || route == DeleteRoute) && !found
  {
    match route
    case CreateRoute => 201
    case UpdateRoute => if found then 200 else 404
    case DeleteRoute => if found then 200 else 404
    case BadRequestRoute => 400
  }

  /**
   * A request answers 400 exactly when it names neither resource, or names /products/{id}
   * with a method other than PUT and DELETE.
   */
  lemma BadRequestIff(request: AdminRequest, found: bool)
    ensures StatusOf(RouteOf(request.resource, request.httpMethod), found) == 400 <==>
      request.resource != ProductsResource &&
      (request.resource != ProductResource || (request.httpMethod != "PUT" && request.httpMethod != "DELETE"))
  {
  }

  /** The handler; freshId is the uuid a creation would draw. */
  method Handler(repository: ProductRepository, request: AdminRequest, freshId: string) returns (response: AdminResponse)
    requires repository.Valid()
    requires freshId !in repository.items
    modifies repository
    ensures repository.Valid()
    ensures response.statusCode ==
      StatusOf(RouteOf(request.resource, request.httpMethod), request.productId in old(repository.items))
    ensures RouteOf(request.resource, request.httpMethod) == CreateRoute ==>
      var created := request.body.(id := freshId);
      response.product == Some(created) && repository.items == old(repository.items)[freshId := created]
    ensures RouteOf(request.resource, request.httpMethod) == UpdateRoute ==>
      if request.productId in old(repository.items) then
        var updated := request.body.(id := request.productId);
        response.product == Some(updated) && repository.items == old(repository.items)[request.productId := updated]
      else
        response.product == None && repository.items == old(repository.items)
    ensures RouteOf(request.resource, request.httpMethod) == DeleteRoute ==>
      if request.productId in old(repository.items) then
        response.product == Some(old(repository.items)[request.productId]) &&
        repository.items == old(repository.items) - {request.productId}
      else
        response.product == None && repository.items == old(repository.items)
    ensures RouteOf(request.resource, request.httpMethod) == BadRequestRoute ==>
      response.product == None && repository.items == old(repository.items)
  {
    if request.resource == ProductsResource {
      var created := repository.CreateProduct(request.body, freshId);
      return AdminResponse(201, Some(created));
    } else if request.resource == ProductResource {
      if request.httpMethod == "PUT" {
        var updated := repository.UpdateProduct(request.productId, request.body);
        if updated.Ok? {
          return AdminResponse(200, Some(updated.value));
        } else {
          return AdminResponse(404, None);
        }
      } else if request.httpMethod == "DELETE" {
        var deleted := repository.DeleteProduct(request.productId);
        if deleted.Ok? {
          return AdminResponse(200, Some(deleted.value));
        } else {
          return AdminResponse(404, None);
        }
      }
    }
    return AdminResponse(400, None);
  }
}
