/** The orders endpoints. Each handler sends one subject-named command to the orders backend and
    has a single `try/catch`: anything thrown becomes a 500 with the endpoint's fixed message. */
module OrdersController {
  import opened Wrappers
  import opened Json
  import opened Rpc

  const CREATE_FAILED: string := "Failed to create order"
  const FIND_ALL_FAILED: string := "Failed to retrieve orders"

  function FindOneFailed(id: string): string { "Failed to retrieve order with ID " + id }
  function ChangeStatusFailed(id: string): string { "Failed to change status of order with ID " + id }

  /** Send the command and await the first reply; anything thrown on the way becomes a 500 with
      the endpoint's message. */
  function Call(cmd: Command, o: Outcome, failMessage: string): Reply {
    Reply(Some(cmd),
          match FirstValueFrom(Send(o))
          case Ok(v) => Ok(v)
          case Err(_) => Err(Raise(failMessage, INTERNAL_SERVER_ERROR)))
  }

  /** POST /orders: the validated DTO is sent as it is. */
  function Create(dto: Json, o: Outcome): (r: Reply)
    ensures r.sent == Some(Command(Subject("createOrder"), dto))
    ensures o.Success? ==> r.result == Ok(o.value)
    ensures !o.Success? ==> r.result == Err(Raise("Failed to create order", 500))
  {
    Call(Command(Subject("createOrder"), dto), o, CREATE_FAILED)
  }

  /** GET /orders: the pagination object is sent as it is. */
  function FindAll(pagination: Json, o: Outcome): (r: Reply)
    ensures r.sent == Some(Command(Subject("findAllOrders"), pagination))
    ensures o.Success? ==> r.result == Ok(o.value)
    ensures !o.Success? ==> r.result == Err(Raise("Failed to retrieve orders", 500))
  {
    Call(Command(Subject("findAllOrders"), pagination), o, FIND_ALL_FAILED)
  }

  /** GET /orders/:id: the payload is `{ id }`. */
  function FindOne(id: string, o: Outcome): (r: Reply)
    ensures r.sent == Some(Command(Subject("findOneOrder"), JObj([("id", JStr(id))])))
    ensures o.Success? ==> r.result == Ok(o.value)
    ensures !o.Success? ==> r.result == Err(Raise("Failed to retrieve order with ID " + id, 500))
  {
    Call(Command(Subject("findOneOrder"), JObj([("id", JStr(id))])), o, FindOneFailed(id))
  }

  /** PATCH /orders/:id/status: the payload is `{ id, status }` with the body's status string as
      it came, whether or not it names an order status. */
  function ChangeStatus(id: string, status: string, o: Outcome): (r: Reply)
    ensures r.sent == Some(Command(Subject("changeOrderStatus"), JObj([("id", JStr(id)), ("status", JStr(status))])))
    ensures o.Success? ==> r.result == Ok(o.value)
    ensures !o.Success? ==> r.result == Err(Raise("Failed to change status of order with ID " + id, 500))
  {
    Call(Command(Subject("changeOrderStatus"), JObj([("id", JStr(id)), ("status", JStr(status))])),
         o, ChangeStatusFailed(id))
  }

  /** No order handler relays the backend's error: two failing calls to the same endpoint end in the
      same exception, and its status is always 500. */
  lemma FailuresAreNotRelayed(id: string, status: string, dto: Json, o1: Outcome, o2: Outcome)
    requires !o1.Success? && !o2.Success?
    ensures Create(dto, o1).result == Create(dto, o2).result
    ensures FindAll(dto, o1).result == FindAll(dto, o2).result
    ensures FindOne(id, o1).result == FindOne(id, o2).result
    ensures ChangeStatus(id, status, o1).result == ChangeStatus(id, status, o2).result
    ensures ChangeStatus(id, status, o1).result.error.error.status == Some(INTERNAL_SERVER_ERROR)
  {
  }

  /** The id-bearing failure messages end with the path id, so distinct ids give distinct messages;
      the create and findAll messages mention no request data. */
  lemma FailureMessageNamesOrder(a: string, b: string)
    ensures FindOneFailed(a)[|FindOneFailed(a)| - |a|..] == a
    ensures ChangeStatusFailed(a)[|ChangeStatusFailed(a)| - |a|..] == a
    ensures FindOneFailed(a) == FindOneFailed(b) ==> a == b
    ensures ChangeStatusFailed(a) == ChangeStatusFailed(b) ==> a == b
  {
  }
}
