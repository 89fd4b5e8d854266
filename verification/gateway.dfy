/** One HTTP request from the route to the response: `ParseUUIDPipe` on path ids, the controller
    handler, and the global RpcException filter on whatever the handler throws. Route bodies are
    taken as already accepted by the global body validation, which runs before any of this. */
module Gateway {
  import opened Wrappers
  import opened Json
  import opened Rpc
  import opened Uuid
  import ProductsController
  import OrdersController
  import RpcExceptionFilter
  import OrderStatusEnum

  /** The routes under the `api` prefix, with the request data each handler reads. */
  datatype Route =
    | PostProduct(body: Json)
    | GetProducts(query: Fields)
    | GetProduct(id: string)
    | PatchProduct(id: string, fields: Fields)
    | DeleteProduct(id: string)
    | PostOrder(dto: Json)
    | GetOrders(pagination: Json)
    | GetOrder(id: string)
    | PatchOrderStatus(id: string, status: string)

  /** What the client receives: the handler's value, the filter's error response, or the
      framework's 400 for a path id that is not a UUID. */
  datatype HttpReply = Body(value: Json) | ErrorReply(status: int, body: Json) | InvalidUuid

  datatype Response = Response(sent: Option<Command>, http: HttpReply)

  predicate HasPathId(r: Route) {
    r.GetProduct? || r.PatchProduct? || r.DeleteProduct? || r.GetOrder? || r.PatchOrderStatus?
  }

  predicate IsOrderRoute(r: Route) {
    r.PostOrder? || r.GetOrders? || r.GetOrder? || r.PatchOrderStatus?
  }

  /** The controller handler the route reaches. */
  function Handle(r: Route, o: Outcome): Reply {
    match r
    case PostProduct(body) => ProductsController.CreateProduct(body, o)
    case GetProducts(query) => ProductsController.FindAllProducts(query, o)
    case GetProduct(id) => ProductsController.FindProductById(id, o)
    case PatchProduct(id, fields) => ProductsController.UpdateProductById(id, fields, o)
    case DeleteProduct(id) => ProductsController.DeleteProductById(id, o)
    case PostOrder(dto) => OrdersController.Create(dto, o)
    case GetOrders(pagination) => OrdersController.FindAll(pagination, o)
    case GetOrder(id) => OrdersController.FindOne(id, o)
    case PatchOrderStatus(id, status) => OrdersController.ChangeStatus(id, status, o)
  }

  /** Serving one request whose backend call, if made, produces `o`. */
  function Serve(r: Route, o: Outcome): (resp: Response)
    ensures resp.http.InvalidUuid? <==> HasPathId(r) && !IsUuid(r.id)
    ensures resp.sent.None? <==> (HasPathId(r) && !IsUuid(r.id)) || (r.PatchProduct? && |r.fields| == 0)
    ensures resp.sent.Some? && o.Success? ==> resp.http == Body(o.value)
    ensures resp.sent.Some? && !o.Success? ==> resp.http.ErrorReply?
    ensures resp.http.ErrorReply? ==>
      && resp.http.body.JObj?
      && Keys(resp.http.body.fields) == ["statusCode", "message"]
      && Lookup(resp.http.body.fields, "statusCode") == Some(JNum(resp.http.status as real))
  {
    if HasPathId(r) && !IsUuid(r.id) then
      Response(None, InvalidUuid)
    else
      var reply := Handle(r, o);
      match reply.result
      case Ok(v) => Response(reply.sent, Body(v))
      case Err(e) =>
        var caught := RpcExceptionFilter.Catch(e);
        Response(reply.sent, ErrorReply(caught.httpStatus, caught.body))
  }

  /** Order routes never relay a backend error: any failure is a 500 whose body does not depend on
      what the backend said. */
  lemma OrderFailuresAre500(r: Route, o1: Outcome, o2: Outcome)
    requires IsOrderRoute(r) && !(HasPathId(r) && !IsUuid(r.id))
    requires !o1.Success? && !o2.Success?
    ensures Serve(r, o1).http.ErrorReply? && Serve(r, o1).http.status == 500
    ensures Serve(r, o1) == Serve(r, o2)
  {
  }

  /** Of the product routes, only update lets a backend status through; the others answer 500. */
  lemma ProductFailuresAre500(r: Route, o: Outcome)
    requires r.PostProduct? || r.GetProducts? || r.GetProduct? || r.DeleteProduct?
    requires !(HasPathId(r) && !IsUuid(r.id))
    requires !o.Success?
    ensures Serve(r, o).http.ErrorReply? && Serve(r, o).http.status == 500
  {
  }

  /** PATCH /products/:id with `{}` answers 400 "No data provided for update" and sends nothing. */
  lemma EmptyUpdateIsRefused(id: string, o: Outcome)
    requires IsUuid(id)
    ensures Serve(PatchProduct(id, []), o)
      == Response(None, ErrorReply(400, RpcExceptionFilter.ErrorBody(400, "No data provided for update")))
  {
  }

  /** A backend rejection of an update reaches the client with the backend's own status and message. */
  lemma UpdateRelaysBackendRejection(id: string, fields: Fields, status: int, message: string)
    requires IsUuid(id) && |fields| > 0 && status != 0 && message != ""
    ensures Serve(PatchProduct(id, fields), Failure(Some(status), Some(message))).http
      == ErrorReply(status, RpcExceptionFilter.ErrorBody(status, message))
  {
  }

  /** A backend "not found" for an order is answered with 500 and the gateway's own message. */
  lemma OrderNotFoundBecomes500(id: string)
    requires IsUuid(id)
    ensures Serve(GetOrder(id), Failure(Some(404), Some("Order not found"))).http
      == ErrorReply(500, RpcExceptionFilter.ErrorBody(500, "Failed to retrieve order with ID " + id))
  {
  }

  /** A status outside the enum is not refused by the gateway: it is forwarded to the backend. */
  lemma UnknownStatusIsForwarded(id: string, o: Outcome)
    requires IsUuid(id)
    ensures OrderStatusEnum.Parse("ARCHIVED").None?
    ensures Serve(PatchOrderStatus(id, "ARCHIVED"), o).sent
      == Some(Command(Subject("changeOrderStatus"), JObj([("id", JStr(id)), ("status", JStr("ARCHIVED"))])))
  {
  }
}
