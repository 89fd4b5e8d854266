# client-gateway: request-to-response decisions, in Dafny

This project models the HTTP gateway of a small shop built from microservices. A request that
passes validation reaches a handler, which sends at most one RPC command to a backend: orders
over NATS, products over TCP. The model covers what the handlers do and what happens on the way
back:

- which command a handler builds (its pattern and its payload);
- what the handler returns or throws for each kind of backend outcome;
- how the global `RpcCustomExceptionFilter` turns a thrown `RpcException` into an HTTP status and
  a `{statusCode, message}` body;
- what `OrderItemDto` accepts, and the `OrderStatus` enum with its list.

Everything is a pure function over immutable datatypes. The backend call is an input of type
`Rpc.Outcome`, with three cases:

- `Success(v)`: the backend replied with a value.
- `Failure(status?, message?)`: the reply stream errored with an object whose fields may be
  missing. This covers both a backend rejection and a transport error.
- `NoReply`: the stream completed without a value, so `firstValueFrom` throws its EmptyError.

A handler returns a `Reply`. It records the command sent, if any, and either the value returned
or the `RpcException` thrown. That record is what lets the model say "nothing is sent before the
400".

Modules, one per source file or concern:

- `Wrappers`: `Option` stands for `undefined`; `Result` stands for return-or-throw.
- `Json`: JSON values. Objects are ordered field lists. `SetField` is property assignment and
  object spread.
- `Rpc`: commands, outcomes, exceptions, and the `catchError` and `firstValueFrom` stages. It
  also holds JavaScript's `||` defaults, with `FalsyStatus` and `FalsyMessage` for `0`, `""` and
  absence.
- `ProductsController`, `OrdersController`, `RpcExceptionFilter`: one function per handler.
- `Uuid`: the 8-4-4-4-12 hexadecimal shape, and a scanning checker proved to decide it.
- `OrderItemDto`, `OrderStatusEnum`: the DTO constraints and the enum.
- `Gateway`: one request whose body the global validation already accepted. The path id goes
  through `ParseUUIDPipe`, then the handler runs, then the filter handles anything thrown.

## Behaviour worth noting

- Backend statuses are relayed by the product update handler only.
  - The other four product handlers answer 500 with a fixed message on any failure, because their
    outer `catch` replaces the exception built by the inner `catchError`. This makes the inner
    404 default of `findProductById` unreachable.
  - Every order handler answers 500 with a fixed message on any failure.
  - So a backend "Order not found" (404) reaches the client as 500
    (`Gateway.OrderNotFoundBecomes500`).
- `changeStatus` forwards any status string to the backend; the handler does not check it against
  `OrderStatus` (`Gateway.UnknownStatusIsForwarded`).
- The update handler passes on the message of any error object it receives, transport errors
  included.
- The filter applies defaults only when a field is missing. The controllers apply theirs to any
  falsy value. So a status of `0` stays `0` in the filter (`RpcExceptionFilter.DefaultsOnlyOnAbsence`).

## Model

| member | source | states |
|---|---|---|
| ProductsController.CreateProduct | src/products/products.controller.ts:30-54 | sends exactly `{cmd:'create_product'}` with the body unchanged; a backend value is returned unchanged; any failure ends as 500 "Failed to create product", whatever the backend said |
| ProductsController.FindAllProducts | src/products/products.controller.ts:56-80 | sends `{cmd:'find_all_products'}` with a field-for-field copy of the query; value unchanged; any failure ends as 500 "Failed to retrieve products" |
| ProductsController.FindProductById | src/products/products.controller.ts:82-106 | sends `{cmd:'find_one_product'}` with payload `{id}`; value unchanged; any failure, even a backend 404, ends as 500 "Failed to retrieve product with id {id}" |
| ProductsController.UpdateProductById | src/products/products.controller.ts:108-145 | nothing is sent exactly when the body has no keys, and then the result is 400 "No data provided for update"; otherwise sends `{cmd:'update_product'}` with an update payload; value unchanged; a backend error keeps its status and message when truthy, else 500 and "Failed to update product with id {id}"; an empty reply stream ends as that 500 |
| ProductsController.SpreadWithId | src/products/products.controller.ts:125 | `{...body, id}` reads the path id under `id`, reads every other key as the body does, and keeps the body's key order, with `id` appended only if the body lacked it |
| ProductsController.DeleteProductById | src/products/products.controller.ts:147-171 | sends `{cmd:'soft_delete_product'}` with payload `{id}`; value unchanged; any failure ends as 500 "Failed to delete product with id {id}" |
| ProductsController.HandleRpcError | src/products/products.controller.ts:174-185 | truthy backend status and message are kept; a falsy status becomes 500; a falsy message becomes "Failed to {op}", or "Failed to {op} for {ctx}" when the context is truthy |
| ProductsController.HandleRpcErrorMatchesInlineMapping | src/products/products.controller.ts:38-43 | the unused helper builds the same exception as the inline `catchError` of create (and of findAll) for every backend error |
| ProductsController.FailureMessageNamesProduct | src/products/products.controller.ts:99-169 | the findById, update and delete failure messages end with the path id, and distinct ids give distinct messages |
| OrdersController.Create | src/orders/orders.controller.ts:28-41 | sends subject `createOrder` with the DTO unchanged; value unchanged; any failure is 500 "Failed to create order" |
| OrdersController.FindAll | src/orders/orders.controller.ts:43-54 | sends subject `findAllOrders` with the pagination object unchanged; value unchanged; any failure is 500 "Failed to retrieve orders" |
| OrdersController.FindOne | src/orders/orders.controller.ts:56-67 | sends subject `findOneOrder` with `{id}`; value unchanged; any failure is 500 "Failed to retrieve order with ID {id}" |
| OrdersController.ChangeStatus | src/orders/orders.controller.ts:69-83 | sends subject `changeOrderStatus` with `{id, status}`, the status string as given; value unchanged; any failure is 500 "Failed to change status of order with ID {id}" |
| OrdersController.FailuresAreNotRelayed | src/orders/orders.controller.ts:34-82 | two failing backend outcomes give the same result on every order endpoint, and that result has status 500, so the backend's status and message never reach the client |
| OrdersController.FailureMessageNamesOrder | src/orders/orders.controller.ts:60-80 | the findOne and changeStatus failure messages end with the path id, and distinct ids give distinct messages |
| RpcExceptionFilter.Catch | src/common/exceptions/rpc-custom-exception.filter.ts:12-22 | HTTP status is the error's status, or 500 when it is missing; the body has exactly the keys `statusCode` and `message`, in that order; `statusCode` equals the HTTP status; the message is the error's, or "Internal server error" when it is missing; the exception is rethrown unchanged |
| RpcExceptionFilter.DefaultsOnlyOnAbsence | src/common/exceptions/rpc-custom-exception.filter.ts:14 | a present status 0 and an empty message are kept by the filter, while the controllers' `\|\|` replaces both |
| RpcExceptionFilter.RaisedExceptionsAreVerbatim | src/common/exceptions/rpc-custom-exception.filter.ts:14-19 | an exception built with both fields is written with exactly that status and message |
| Uuid.CheckUuid | src/orders/dto/order-item.dto.ts:6-8 | an executable decision procedure for the UUID shape: the character scan returns true exactly for strings in 8-4-4-4-12 hexadecimal UUID form |
| Uuid.UuidIsNotEmpty | src/orders/dto/order-item.dto.ts:6-8 | a UUID is never empty, so the non-empty check is implied by the UUID check |
| Uuid.Examples | src/orders/dto/order-item.dto.ts:6 | a sample UUID is accepted in either letter case; a short string, a non-hex character and a missing hyphen are each rejected |
| OrderItemDto.Validate | src/orders/dto/order-item.dto.ts:4-17 | an item is accepted exactly when productId is a UUID string and quantity and price are numbers above 0; the accepted item carries those values; a rejection lists every failed constraint (the whole violation set, never empty) |
| OrderItemDto.ViolationsAreTheFailedConstraints | src/orders/dto/order-item.dto.ts:6-16 | each of the six decorator checks appears among the violations exactly when that check fails |
| OrderItemDto.ViolationsArePerField | src/orders/dto/order-item.dto.ts:4-17 | the violations reported for a field depend only on that field, so one bad field never hides another's violations |
| OrderItemDto.FractionalQuantityIsAccepted | src/orders/dto/order-item.dto.ts:10-12 | quantity 0.5 is accepted, since no integer check applies |
| OrderItemDto.NonPositiveQuantityIsRejected | src/orders/dto/order-item.dto.ts:10-12 | a quantity of 0 or less is rejected with only the positivity violation; a quoted number fails both the number and the positivity checks |
| OrderItemDto.MissingFieldsFailEverything | src/orders/dto/order-item.dto.ts:4-17 | an item with no fields is reported with all six violations together |
| OrderStatusEnum.OrderStatusList | src/orders/dto/enum/order.enum.ts:7-12 | the list has four entries, contains every member, has no duplicates and follows declaration order: PENDING, SHIPPED, DELIVERED, CANCELLED |
| OrderStatusEnum.Parse | src/orders/dto/enum/order.enum.ts:1-6 | reading a string against the enum gives a member whose value is that string, or nothing when no member has it |
| OrderStatusEnum.ParseValueRoundTrip | src/orders/dto/enum/order.enum.ts:2-5 | each member's value reads back as that member, and a string names a member exactly when it is some member's value |
| OrderStatusEnum.ArchivedIsNotAStatus | src/orders/dto/enum/order.enum.ts:1-6 | "ARCHIVED" is not a member of the closed set |
| Json.LookupFindsField | src/products/products.controller.ts:115 | reading a key gives a value exactly when the key is among the object's keys, and that value is the one stored under the key |
| Json.SetField | src/products/products.controller.ts:125 | after the assignment the key reads the new value |
| Json.SetFieldKeys | src/products/products.controller.ts:125 | the key list is unchanged when the key existed, and otherwise has the key appended at the end |
| Json.SetFieldKeepsOthers | src/products/products.controller.ts:125 | assigning one key leaves every other key's value unchanged |
| Json.SetFieldKeepsKeysDistinct | src/products/products.controller.ts:125 | the assignment never duplicates a key |
| Gateway.Serve | src/main.ts:12-18 | for a body the global validation accepted: the pipe's 400 happens exactly when a path id is not a UUID; nothing is sent exactly then or for an empty update body; once sent, success returns the backend value and failure gives an error response whose `statusCode` equals its HTTP status |
| Gateway.OrderFailuresAre500 | src/orders/orders.controller.ts:34-82 | every order request whose backend call fails gets HTTP 500, with a response that does not depend on the failure |
| Gateway.ProductFailuresAre500 | src/products/products.controller.ts:47-169 | create, findAll, findById and delete answer HTTP 500 to every failing backend call |
| Gateway.EmptyUpdateIsRefused | src/products/products.controller.ts:115-120 | PATCH with `{}` answers 400 with body `{statusCode:400, message:"No data provided for update"}` and sends nothing |
| Gateway.UpdateRelaysBackendRejection | src/products/products.controller.ts:127-137 | a backend rejection with truthy status and message reaches the client as that status and message |
| Gateway.OrderNotFoundBecomes500 | src/orders/orders.controller.ts:60-66 | a backend 404 "Order not found" reaches the client as 500 "Failed to retrieve order with ID {id}" |
| Gateway.UnknownStatusIsForwarded | src/orders/orders.controller.ts:69-75 | a status outside the enum is still sent to the backend unchanged |

## Left out

- Logging: the `logger.error` calls are side effects that are not modelled.
- RxJS and transport details: timeouts, correlation, concurrency and cancellation are not
  modelled. The backend call is the `Outcome` parameter.
- Bootstrap, the global `api` prefix, and the NATS and TCP client configuration
  (`src/main.ts`, `src/transports/nats.module.ts`, `src/products/products.module.ts`) are not
  modelled.
- The global `ValidationPipe` whitelist (unknown body keys rejected) is framework behaviour and
  is not modelled. The DTOs it applies to, except `OrderItemDto`, are not part of this model.
- Gateway.Serve: route bodies are those the global `ValidationPipe` accepted. A body it rejects
  (an order item with quantity 0, an update with an undeclared key) is answered with 400 before
  any handler runs, and that path is not part of `Serve`; `OrderItemDto.Validate` is not wired
  into it, because the order DTO that holds the items is not part of this model.
- `ParseUUIDPipe`'s response body is the framework's and is not modelled. Only its 400 is, as
  `InvalidUuid`.
- Uuid.CheckUuid: accepts every 8-4-4-4-12 hexadecimal string and does not check version or variant
  digits. The validator library's exact UUID pattern is not part of this model.
- JSON numbers are reals. NaN, infinities and floating-point rounding are not modelled, and
  neither are non-numeric `status` or non-string `message` values in backend errors.
- OrdersController.ChangeStatus: takes the body's `status` as a string. A missing or non-string `status`, which
  the handler would also forward, is not modelled.
- RpcExceptionFilter.Catch: a `status` or `message` that is present but `null` is not modelled.
  Destructuring defaults replace only `undefined`, so the filter would pass `null` on; in the
  model a field is either absent or a number or string.
- The filter's handling of an RpcException whose payload is a plain string is not modelled.
  Every exception in this model carries an object.
- Determinism of the translation is not stated as a lemma: every member is a mathematical
  function, so equal inputs give equal results by construction.
