/** The products endpoints. Each handler sends one `{cmd: ...}` command to the products backend.
    A backend error first goes through a `catchError` that builds an RpcException with defaults for
    falsy fields; then an outer `try/catch` decides what the handler throws. */
module ProductsController {
  import opened Wrappers
  import opened Json
  import opened Rpc

  const NO_DATA_FOR_UPDATE: string := "No data provided for update"
  const CREATE_FAILED: string := "Failed to create product"
  const FIND_ALL_FAILED: string := "Failed to retrieve products"

  function NotFound(id: string): string { "Product with id " + id + " not found" }
  function FindFailed(id: string): string { "Failed to retrieve product with id " + id }
  function UpdateFailed(id: string): string { "Failed to update product with id " + id }
  function DeleteFailed(id: string): string { "Failed to delete product with id " + id }

  /** The outer `catch` of create, findAll, findById and delete: whatever was thrown, throw a fresh
      500 with the endpoint's fixed message. */
  function CatchAll(r: Result<Json, Thrown>, message: string): Result<Json, RpcException> {
    match r
    case Ok(v) => Ok(v)
    case Err(_) => Err(Raise(message, INTERNAL_SERVER_ERROR))
  }

  /** The outer `catch` of update: an RpcException is rethrown as it is; anything else becomes a 500. */
  function RethrowRpc(r: Result<Json, Thrown>, message: string): Result<Json, RpcException> {
    match r
    case Ok(v) => Ok(v)
    case Err(Raised(e)) => Err(e)
    case Err(_) => Err(Raise(message, INTERNAL_SERVER_ERROR))
  }

  /** The body of the `try` block shared by the handlers: send, map backend errors, await. */
  function Await(o: Outcome, innerMessage: string, innerStatus: int): Result<Json, Thrown> {
    FirstValueFrom(CatchBackendError(Send(o), innerMessage, innerStatus))
  }

  /** POST /products. */
  function CreateProduct(body: Json, o: Outcome): (r: Reply)
    ensures r.sent == Some(Command(Cmd("create_product"), body))
    ensures o.Success? ==> r.result == Ok(o.value)
    ensures !o.Success? ==> r.result == Err(Raise("Failed to create product", 500))
  {
    Reply(Some(Command(Cmd("create_product"), body)),
          CatchAll(Await(o, CREATE_FAILED, INTERNAL_SERVER_ERROR), CREATE_FAILED))
  }

  /** GET /products: the query object is copied field by field (`{ ...paginationDto }`). */
  function FindAllProducts(query: Fields, o: Outcome): (r: Reply)
    ensures r.sent == Some(Command(Cmd("find_all_products"), JObj(query)))
    ensures o.Success? ==> r.result == Ok(o.value)
    ensures !o.Success? ==> r.result == Err(Raise("Failed to retrieve products", 500))
  {
    Reply(Some(Command(Cmd("find_all_products"), JObj(query))),
          CatchAll(Await(o, FIND_ALL_FAILED, INTERNAL_SERVER_ERROR), FIND_ALL_FAILED))
  }

  /** GET /products/:id. The inner mapping defaults to 404, but the outer catch replaces it. */
  function FindProductById(id: string, o: Outcome): (r: Reply)
    ensures r.sent == Some(Command(Cmd("find_one_product"), JObj([("id", JStr(id))])))
    ensures o.Success? ==> r.result == Ok(o.value)
    ensures !o.Success? ==> r.result == Err(Raise("Failed to retrieve product with id " + id, 500))
  {
    Reply(Some(Command(Cmd("find_one_product"), JObj([("id", JStr(id))]))),
          CatchAll(Await(o, NotFound(id), NOT_FOUND), FindFailed(id)))
  }

  /** The payload update sends: the body's fields, in order, with `id` set to the path id. */
  ghost predicate IsUpdatePayload(body: Fields, id: string, p: Json) {
    && p.JObj?
    && Lookup(p.fields, "id") == Some(JStr(id))
    && (forall k :: k != "id" ==> Lookup(p.fields, k) == Lookup(body, k))
    && Keys(p.fields) == if "id" in Keys(body) then Keys(body) else Keys(body) + ["id"]
  }

  /** `{ ...body, id }` is such a payload: the path id wins over any `id` in the body. */
  lemma SpreadWithId(body: Fields, id: string)
    ensures IsUpdatePayload(body, id, JObj(SetField(body, "id", JStr(id))))
  {
    SetFieldKeys(body, "id", JStr(id));
    forall k | k != "id" ensures Lookup(SetField(body, "id", JStr(id)), k) == Lookup(body, k) {
      SetFieldKeepsOthers(body, "id", JStr(id), k);
    }
  }

  /** PATCH /products/:id. An empty body is refused with 400 before anything is sent; the outer
      catch rethrows RpcExceptions, so both that 400 and the backend's own status and message
      (with falsy fields defaulted) reach the client. */
  function UpdateProductById(id: string, body: Fields, o: Outcome): (r: Reply)
    ensures r.sent.None? <==> |body| == 0
    ensures |body| == 0 ==> r.result == Err(Raise("No data provided for update", 400))
    ensures r.sent.Some? ==>
      r.sent.value.pattern == Cmd("update_product") && IsUpdatePayload(body, id, r.sent.value.payload)
    ensures |body| > 0 && o.Success? ==> r.result == Ok(o.value)
    ensures |body| > 0 && o.Failure? ==>
      && r.result.Err?
      && (FalsyStatus(o.status) ==> r.result.error.error.status == Some(500))
      && (!FalsyStatus(o.status) ==> r.result.error.error.status == o.status)
      && (FalsyMessage(o.message) ==> r.result.error.error.message == Some("Failed to update product with id " + id))
      && (!FalsyMessage(o.message) ==> r.result.error.error.message == o.message)
    ensures |body| > 0 && o.NoReply? ==> r.result == Err(Raise("Failed to update product with id " + id, 500))
  {
    if |body| == 0 then
      Reply(None, RethrowRpc(Err(Raised(Raise(NO_DATA_FOR_UPDATE, BAD_REQUEST))), UpdateFailed(id)))
    else
      SpreadWithId(body, id);
      Reply(Some(Command(Cmd("update_product"), JObj(SetField(body, "id", JStr(id))))),
            RethrowRpc(Await(o, UpdateFailed(id), INTERNAL_SERVER_ERROR), UpdateFailed(id)))
  }

  /** DELETE /products/:id (a soft delete in the backend). */
  function DeleteProductById(id: string, o: Outcome): (r: Reply)
    ensures r.sent == Some(Command(Cmd("soft_delete_product"), JObj([("id", JStr(id))])))
    ensures o.Success? ==> r.result == Ok(o.value)
    ensures !o.Success? ==> r.result == Err(Raise("Failed to delete product with id " + id, 500))
  {
    Reply(Some(Command(Cmd("soft_delete_product"), JObj([("id", JStr(id))]))),
          CatchAll(Await(o, DeleteFailed(id), INTERNAL_SERVER_ERROR), DeleteFailed(id)))
  }

  /** JavaScript truthiness of an optional context string. */
  predicate TruthyContext(context: Option<string>) {
    context.Some? && context.value != ""
  }

  /** `handleRpcError(operation, error, context)`: the exception it throws for a backend error.
      The fallback message is "Failed to {operation}", with " for {context}" when a context is given. */
  function HandleRpcError(operation: string, error: Outcome, context: Option<string>): (e: RpcException)
    requires error.Failure?
    ensures e.error.status.Some? && e.error.message.Some?
    ensures !FalsyStatus(error.status) ==> e.error.status == error.status
    ensures FalsyStatus(error.status) ==> e.error.status == Some(500)
    ensures !FalsyMessage(error.message) ==> e.error.message == error.message
    ensures FalsyMessage(error.message) && !TruthyContext(context) ==>
      e.error.message == Some("Failed to " + operation)
    ensures FalsyMessage(error.message) && TruthyContext(context) ==>
      e.error.message == Some("Failed to " + operation + " for " + context.value)
  {
    var errorMessage := if TruthyContext(context)
      then "Failed to " + operation + " for " + context.value
      else "Failed to " + operation;
    Raise(OrMessage(error.message, errorMessage), OrStatus(error.status, INTERNAL_SERVER_ERROR))
  }

  /** `handleRpcError` builds, for create and findAll, exactly the exception their inline
      `catchError` builds; it is never called, and with a context its message reads "... for ..."
      where the inline mappings say "... with id ...". */
  lemma HandleRpcErrorMatchesInlineMapping(o: Outcome)
    requires o.Failure?
    ensures Await(o, CREATE_FAILED, INTERNAL_SERVER_ERROR) == Err(Raised(HandleRpcError("create product", o, None)))
    ensures Await(o, FIND_ALL_FAILED, INTERNAL_SERVER_ERROR) == Err(Raised(HandleRpcError("retrieve products", o, None)))
  {
    assert "Failed to " + "create product" == CREATE_FAILED;
    assert "Failed to " + "retrieve products" == FIND_ALL_FAILED;
  }

  /** The id-bearing failure messages end with the path id, so distinct ids give distinct messages. */
  lemma FailureMessageNamesProduct(a: string, b: string)
    ensures UpdateFailed(a)[|UpdateFailed(a)| - |a|..] == a
    ensures DeleteFailed(a)[|DeleteFailed(a)| - |a|..] == a
    ensures FindFailed(a)[|FindFailed(a)| - |a|..] == a
    ensures UpdateFailed(a) == UpdateFailed(b) ==> a == b
    ensures DeleteFailed(a) == DeleteFailed(b) ==> a == b
    ensures FindFailed(a) == FindFailed(b) ==> a == b
  {
  }
}
