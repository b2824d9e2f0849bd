/** gen/servergrpc/server/server.go: the entry point of the moving service.
    It starts the listeners, dispatches HTTP requests between gRPC, a
    redirect and the gateway, maps the protobuf messages to and from the
    handler layer, and builds every gRPC status error the service returns.
    The listeners, the gateway mux and the validator library are
    parameters; the Server struct's own state is not modelled. */
module GrpcServer {
  import opened Wrappers
  import opened Errors
  import opened GoTime
  import opened GoStrings
  import opened Utils
  import opened OrderUpdate
  import PropertySizes
  import OrderStatuses

  /** The domain of every ErrorInfo detail. */
  const Domain: string := "mattis.dev"

  // ---------------------------------------------------------------- errors

  /** gRPCError: a status with the given code, the message "error: " and
      the service error's text ("error not set" when there is none), and
      one ErrorInfo carrying the reason's text and the domain. grpc refuses
      details on a status with code OK, and gRPCError then panics, so the
      code must not be OK. */
  function GrpcError(code: Code, reason: Error, serviceErr: Option<Error>): (e: Error)
    requires code != OK
    ensures e.Status? && e.code == code && ErrorCode(e) == code
    ensures e.details == [ErrorInfo(Message(reason), Domain)]
    ensures serviceErr.Some? ==> e.message == "error: " + Message(serviceErr.value)
    ensures serviceErr.None? ==> e.message == "error: error not set"
  {
    var cause := serviceErr.GetOr(Plain("error not set"));
    Status(code, "error: " + Message(cause), [ErrorInfo(Message(reason), Domain)])
  }

  /** GRPCUnauthorizedError: code Unauthenticated, the reason in the detail, the error in the message. */
  function UnauthorizedError(reason: Error, err: Option<Error>): (e: Error)
    ensures e.Status? && e.code == Unauthenticated
    ensures e.details == [ErrorInfo(Message(reason), Domain)]
    ensures e.message == "error: " + Message(err.GetOr(Plain("error not set")))
  {
    GrpcError(Unauthenticated, reason, err)
  }

  /** GRPCValidationError: code InvalidArgument, the reason in the detail, the error in the message. */
  function ValidationError(reason: Error, err: Option<Error>): (e: Error)
    ensures e.Status? && e.code == InvalidArgument
    ensures e.details == [ErrorInfo(Message(reason), Domain)]
    ensures e.message == "error: " + Message(err.GetOr(Plain("error not set")))
  {
    GrpcError(InvalidArgument, reason, err)
  }

  /** GRPCBusinessError: code FailedPrecondition, the reason in the detail, the error in the message. */
  function BusinessError(reason: Error, err: Option<Error>): (e: Error)
    ensures e.Status? && e.code == FailedPrecondition
    ensures e.details == [ErrorInfo(Message(reason), Domain)]
    ensures e.message == "error: " + Message(err.GetOr(Plain("error not set")))
  {
    GrpcError(FailedPrecondition, reason, err)
  }

  /** GRPCUnknownError: code Unknown, the reason in the detail, the error in the message. */
  function UnknownError(reason: Error, err: Option<Error>): (e: Error)
    ensures e.Status? && e.code == Unknown
    ensures e.details == [ErrorInfo(Message(reason), Domain)]
    ensures e.message == "error: " + Message(err.GetOr(Plain("error not set")))
  {
    GrpcError(Unknown, reason, err)
  }

  /** GRPCCustomError: any code but OK, the reason in the detail, the error
      in the message. */
  function CustomError(code: Code, reason: Error, err: Option<Error>): (e: Error)
    requires code != OK
    ensures e.Status? && e.code == code
    ensures e.details == [ErrorInfo(Message(reason), Domain)]
    ensures e.message == "error: " + Message(err.GetOr(Plain("error not set")))
  {
    GrpcError(code, reason, err)
  }

  /** Each named constructor fixes its code, and the custom one is the
      general form of all four. */
  lemma ErrorCodes(code: Code, reason: Error, err: Option<Error>)
    requires code != OK
    ensures StatusCode(Some(UnauthorizedError(reason, err))) == Unauthenticated
    ensures StatusCode(Some(ValidationError(reason, err))) == InvalidArgument
    ensures StatusCode(Some(BusinessError(reason, err))) == FailedPrecondition
    ensures StatusCode(Some(UnknownError(reason, err))) == Unknown
    ensures StatusCode(Some(CustomError(code, reason, err))) == code
    ensures UnknownError(reason, err) == CustomError(Unknown, reason, err)
  {
  }

  /** validate: the validator's verdict on a request. A failure becomes
      InvalidArgument with reason "validation failed" and the validator's
      error as the message. */
  function Validate(verdict: Option<Error>): (e: Option<Error>)
    ensures e.None? <==> verdict.None?
    ensures e.Some? ==> e.value.Status? && e.value.code == InvalidArgument
    ensures e.Some? ==> e.value.Status? && e.value.details == [ErrorInfo("validation failed", Domain)]
    ensures e.Some? ==> e.value.Status? && e.value.message == "error: " + Message(verdict.value)
  {
    if verdict.Some? then Some(ValidationError(Sentinel(ValidationFailed), verdict)) else None
  }

  /** The handlers report their failure as GRPCUnknownError(err, nil): the
      handler's error text goes into the ErrorInfo reason, and the status
      message is always "error: error not set". */
  lemma HandlerErrorShape(err: Error)
    ensures UnknownError(err, None) == Status(Unknown, "error: error not set", [ErrorInfo(Message(err), Domain)])
  {
  }

  // ------------------------------------------------------------- listeners

  /** Serve: a nil port is refused before anything else; a listen error
      is returned as it is, a serve error wrapped. */
  function Serve(port: Option<int>, listen: int -> Option<Error>, serve: int -> Option<Error>): (err: Option<Error>)
    ensures port.None? ==> err == Some(Sentinel(PortNotSpecified))
    ensures port.Some? && listen(port.value).Some? ==> err == listen(port.value)
    ensures port.Some? && listen(port.value).None? ==>
      (err.None? <==> serve(port.value).None?)
    ensures port.Some? && listen(port.value).None? && serve(port.value).Some? ==>
      err == Some(Wrapped("error while serve grpc | ", serve(port.value).value))
  {
    if port.None? then Some(Sentinel(PortNotSpecified))
    else if listen(port.value).Some? then listen(port.value)
    else match serve(port.value)
      case None => None
      case Some(e) => Some(Wrapped("error while serve grpc | ", e))
  }

  /** ServeHTTP's start-up: a nil port is refused, a listener error wrapped. */
  function ServeHttp(port: Option<int>, listenAndServe: int -> Option<Error>): (err: Option<Error>)
    ensures port.None? ==> err == Some(Sentinel(PortNotSpecified))
    ensures port.Some? ==> (err.None? <==> listenAndServe(port.value).None?)
    ensures port.Some? && listenAndServe(port.value).Some? ==>
      err == Some(Wrapped("error while serve http | ", listenAndServe(port.value).value))
  {
    if port.None? then Some(Sentinel(PortNotSpecified))
    else match listenAndServe(port.value)
      case None => None
      case Some(e) => Some(Wrapped("error while serve http | ", e))
  }

  // --------------------------------------------------------------- routing

  datatype HttpRequest = HttpRequest(protoMajor: int, contentType: string, path: string)

  const StatusPermanentRedirect: int := 308

  datatype Route = ToGrpc | Redirect(status: int, location: string) | ToGateway

  predicate IsGrpcCall(r: HttpRequest) {
    r.protoMajor == 2 && r.contentType == "application/grpc"
  }

  /** The handler ServeHTTP installs. gRPC is checked first; then a path
      of two or more characters ending in '/' is redirected permanently to
      the path without that one '/'; everything else goes to the gateway. */
  function Dispatch(r: HttpRequest): (route: Route)
    ensures route == ToGrpc <==> IsGrpcCall(r)
    ensures route.Redirect? <==> !IsGrpcCall(r) && |r.path| > 1 && r.path[|r.path| - 1] == '/'
    ensures route.Redirect? ==> route.status == StatusPermanentRedirect && route.location + "/" == r.path
    ensures route == ToGateway <==> !IsGrpcCall(r) && !(|r.path| > 1 && r.path[|r.path| - 1] == '/')
  {
    if IsGrpcCall(r) then ToGrpc
    else if |r.path| > 1 && r.path[|r.path| - 1] == '/' then
      Redirect(StatusPermanentRedirect, r.path[..|r.path| - 1])
    else ToGateway
  }

  /** The root path is never redirected. */
  lemma RootIsServed(protoMajor: int, contentType: string)
    ensures !Dispatch(HttpRequest(protoMajor, contentType, "/")).Redirect?
  {
  }

  /** The path a client ends up at after following every redirect. */
  function Settled(r: HttpRequest): (path: string)
    requires !IsGrpcCall(r)
    ensures |path| <= |r.path| && r.path[..|path|] == path
    ensures forall i :: |path| <= i < |r.path| ==> r.path[i] == '/'
    ensures !Dispatch(r.(path := path)).Redirect?
    ensures |r.path| > 0 ==> |path| > 0
    decreases |r.path|
  {
    match Dispatch(r)
    case Redirect(_, location) =>
      var p := Settled(r.(path := location));
      assert r.path == location + "/";
      assert r.path[..|location|] == location;
      p
    case _ => r.path
  }

  // ----------------------------------------------------------- wire types

  /** The protobuf CreateOrderRequest. Its scalar fields are dereferenced
      unconditionally, so the model takes them as present. */
  datatype WireCreateOrderRequest = WireCreateOrderRequest(
    propertySize: int,
    orderStatus: int,
    moveDate: Option<Timestamp>,
    name: string,
    email: string,
    phone: string,
    moveFrom: string,
    moveTo: string,
    additionalInfo: string)

  /** The protobuf Order; every field but the ID is optional. */
  datatype WireOrder = WireOrder(
    id: nat,
    propertySize: Option<int>,
    orderStatus: Option<int>,
    moveDate: Option<Timestamp>,
    name: Option<string>,
    email: Option<string>,
    phone: Option<string>,
    moveFrom: Option<string>,
    moveTo: Option<string>,
    additionalInfo: Option<string>)

  /** The protobuf UpdateOrderRequest: an ID and eight optional fields. */
  datatype WireUpdateOrderRequest = WireUpdateOrderRequest(
    id: nat,
    propertySize: Option<int>,
    orderStatus: Option<int>,
    moveDate: Option<Timestamp>,
    name: Option<string>,
    email: Option<string>,
    phone: Option<string>,
    moveFrom: Option<string>,
    moveTo: Option<string>)

  /** The handler-layer types server.go is written against. */
  datatype HandlerCreateOrderRequest = HandlerCreateOrderRequest(
    propertySize: int,
    orderStatus: int,
    moveDate: Time,
    name: string,
    email: string,
    phone: string,
    moveFrom: string,
    moveTo: string,
    additionalInfo: string)

  datatype HandlerOrder = HandlerOrder(
    id: nat,
    propertySize: int,
    orderStatus: int,
    moveDate: Time,
    name: string,
    email: string,
    phone: string,
    moveFrom: string,
    moveTo: string,
    additionalInfo: string)

  const Int32Modulus: int := 0x1_0000_0000

  /** The conversion of a Go int to a protobuf enum (an int32): the value
      is taken modulo 2^32 into [-2^31, 2^31). */
  function Int32(x: int): (r: int)
    ensures -0x8000_0000 <= r < 0x8000_0000
    ensures (x - r) % Int32Modulus == 0
    ensures -0x8000_0000 <= x < 0x8000_0000 ==> r == x
  {
    (x + 0x8000_0000) % Int32Modulus - 0x8000_0000
  }

  /** The stored codes are small, so the conversion keeps them. */
  lemma KnownCodesFit(size: int, status: int)
    requires PropertySizes.Known(size) && OrderStatuses.Known(status)
    ensures Int32(size) == size && Int32(status) == status
  {
  }

  // ---------------------------------------------------------- CreateOrder

  function HandlerCreateRequest(req: WireCreateOrderRequest): (h: HandlerCreateOrderRequest)
    ensures h.propertySize == req.propertySize && h.orderStatus == req.orderStatus
    ensures h.moveDate == AsTime(req.moveDate)
    ensures h.name == req.name && h.email == req.email && h.phone == req.phone
    ensures h.moveFrom == req.moveFrom && h.moveTo == req.moveTo && h.additionalInfo == req.additionalInfo
  {
    HandlerCreateOrderRequest(req.propertySize, req.orderStatus, AsTime(req.moveDate), req.name, req.email,
                              req.phone, req.moveFrom, req.moveTo, req.additionalInfo)
  }

  /** The CreateOrder response: a zero size or status is left out, the
      other fields are always set. */
  function CreatedOrder(o: HandlerOrder): (w: WireOrder)
    ensures w.propertySize.None? <==> Int32(o.propertySize) == 0
    ensures w.orderStatus.None? <==> Int32(o.orderStatus) == 0
    ensures w.propertySize.Some? ==> w.propertySize.value == Int32(o.propertySize)
    ensures w.orderStatus.Some? ==> w.orderStatus.value == Int32(o.orderStatus)
    ensures w.id == o.id && w.moveDate == Some(NewTimestamp(o.moveDate))
    ensures w.name == Some(o.name) && w.email == Some(o.email) && w.phone == Some(o.phone)
    ensures w.moveFrom == Some(o.moveFrom) && w.moveTo == Some(o.moveTo)
    ensures w.additionalInfo == Some(o.additionalInfo)
  {
    WireOrder(o.id, PtrIfNotZeroCode(Int32(o.propertySize)), PtrIfNotZeroCode(Int32(o.orderStatus)),
              Some(NewTimestamp(o.moveDate)), Some(o.name), Some(o.email), Some(o.phone),
              Some(o.moveFrom), Some(o.moveTo), Some(o.additionalInfo))
  }

  /** Server.CreateOrder: validation first; a handler error becomes
      Unknown; the created order is mapped back. */
  function CreateOrder(validate: HandlerCreateOrderRequest -> Option<Error>,
                       create: HandlerCreateOrderRequest -> Result<HandlerOrder>,
                       req: WireCreateOrderRequest): (r: Result<WireOrder>)
    ensures validate(HandlerCreateRequest(req)).Some? ==> r == Err(Validate(validate(HandlerCreateRequest(req))).value)
    ensures validate(HandlerCreateRequest(req)).None? && create(HandlerCreateRequest(req)).Err? ==>
      r == Err(UnknownError(create(HandlerCreateRequest(req)).error, None))
    ensures validate(HandlerCreateRequest(req)).None? && create(HandlerCreateRequest(req)).Ok? ==>
      r == Ok(CreatedOrder(create(HandlerCreateRequest(req)).value))
    ensures r.Err? ==> ErrorCode(r.error) == InvalidArgument || ErrorCode(r.error) == Unknown
  {
    var h := HandlerCreateRequest(req);
    match Validate(validate(h))
    case Some(e) => Err(e)
    case None =>
      match create(h)
      case Err(e) => Err(UnknownError(e, None))
      case Ok(o) => Ok(CreatedOrder(o))
  }

  // ------------------------------------------------------------ AllOrders

  /** The AllOrders element: size and status are always set, zero or not. */
  function ListedOrder(o: HandlerOrder): (w: WireOrder)
    ensures w.propertySize == Some(Int32(o.propertySize)) && w.orderStatus == Some(Int32(o.orderStatus))
    ensures w == CreatedOrder(o).(propertySize := w.propertySize, orderStatus := w.orderStatus)
  {
    WireOrder(o.id, Some(Int32(o.propertySize)), Some(Int32(o.orderStatus)),
              Some(NewTimestamp(o.moveDate)), Some(o.name), Some(o.email), Some(o.phone),
              Some(o.moveFrom), Some(o.moveTo), Some(o.additionalInfo))
  }

  /** The two mappings agree exactly when neither code is zero. */
  lemma CreatedAndListedAgree(o: HandlerOrder)
    ensures CreatedOrder(o) == ListedOrder(o) <==> Int32(o.propertySize) != 0 && Int32(o.orderStatus) != 0
  {
  }

  /** Server.AllOrders: a handler error becomes Unknown; otherwise one wire
      order per handler order, in order. */
  method AllOrders(listed: Result<seq<HandlerOrder>>) returns (r: Result<seq<WireOrder>>)
    ensures listed.Err? ==> r == Err(UnknownError(listed.error, None))
    ensures listed.Ok? ==> r.Ok? && |r.value| == |listed.value|
    ensures listed.Ok? ==> forall i :: 0 <= i < |listed.value| ==> r.value[i] == ListedOrder(listed.value[i])
  {
    if listed.Err? {
      return Err(UnknownError(listed.error, None));
    }
    var rpcOrders := listed.value;
    var orders: seq<WireOrder> := [];
    for i := 0 to |rpcOrders|
      invariant |orders| == i
      invariant forall k :: 0 <= k < i ==> orders[k] == ListedOrder(rpcOrders[k])
    {
      orders := orders + [ListedOrder(rpcOrders[i])];
    }
    return Ok(orders);
  }

  // ---------------------------------------------------------- UpdateOrder

  /** The update mapping as server.go writes it: each getter's zero value
      becomes absent, additional info is never set, and the move date is
      PtrIfNotZero(GetMoveDate().AsTime()). A missing timestamp reads as
      the Unix epoch, which is not Go's zero time, so it arrives as a
      present 1970-01-01. */
  function HandlerUpdateAsWritten(w: WireUpdateOrderRequest): (r: UpdateOrderRequest)
    ensures r.moveDate == PtrIfNotZeroTime(AsTime(w.moveDate))
    ensures r.additionalInfo.None?
  {
    HandlerUpdate(w).(moveDate := PtrIfNotZeroTime(AsTime(w.moveDate)))
  }

  /** A request that leaves the move date out still sets it to the epoch. */
  lemma MissingMoveDateBecomesEpoch(w: WireUpdateOrderRequest)
    requires w.moveDate.None?
    ensures HandlerUpdateAsWritten(w).moveDate == Some(Unix(0, 0))
    ensures HandlerUpdate(w).moveDate.None?
  {
    EpochIsNotZero();
  }

  /** The mapping with a missing timestamp kept absent: every field that is
      missing or zero on the wire is absent in the handler request, every
      other field arrives unchanged, and additional info is never set. */
  function HandlerUpdate(w: WireUpdateOrderRequest): (r: UpdateOrderRequest)
    ensures r.id == w.id
    ensures r.propertySize.None? <==> w.propertySize.None? || w.propertySize == Some(0)
    ensures r.orderStatus.None? <==> w.orderStatus.None? || w.orderStatus == Some(0)
    ensures r.propertySize.Some? ==> r.propertySize == w.propertySize
    ensures r.orderStatus.Some? ==> r.orderStatus == w.orderStatus
    ensures r.moveDate.None? <==> w.moveDate.None? || IsZero(AsTime(w.moveDate))
    ensures r.moveDate.Some? ==> r.moveDate == Some(AsTime(w.moveDate))
    ensures r.name.None? <==> w.name.None? || w.name == Some("")
    ensures r.email.None? <==> w.email.None? || w.email == Some("")
    ensures r.phone.None? <==> w.phone.None? || w.phone == Some("")
    ensures r.moveFrom.None? <==> w.moveFrom.None? || w.moveFrom == Some("")
    ensures r.moveTo.None? <==> w.moveTo.None? || w.moveTo == Some("")
    ensures r.name.Some? ==> r.name == w.name
    ensures r.email.Some? ==> r.email == w.email
    ensures r.phone.Some? ==> r.phone == w.phone
    ensures r.moveFrom.Some? ==> r.moveFrom == w.moveFrom
    ensures r.moveTo.Some? ==> r.moveTo == w.moveTo
    ensures r.additionalInfo.None? && NoUnknownEnums(r)
  {
    UpdateOrderRequest(
      w.id,
      PtrIfNotZeroCode(w.propertySize.GetOr(0)),
      PtrIfNotZeroCode(w.orderStatus.GetOr(0)),
      if w.moveDate.None? then None else PtrIfNotZeroTime(AsTime(w.moveDate)),
      PtrIfNotZeroString(w.name.GetOr("")),
      PtrIfNotZeroString(w.email.GetOr("")),
      PtrIfNotZeroString(w.phone.GetOr("")),
      PtrIfNotZeroString(w.moveFrom.GetOr("")),
      PtrIfNotZeroString(w.moveTo.GetOr("")),
      None)
  }

  /** The two mappings differ only in the move date, and only when it is
      missing. */
  lemma AsWrittenDiffersOnlyWhenMissing(w: WireUpdateOrderRequest)
    ensures HandlerUpdateAsWritten(w).(moveDate := HandlerUpdate(w).moveDate) == HandlerUpdate(w)
    ensures HandlerUpdateAsWritten(w) == HandlerUpdate(w) <==> w.moveDate.Some?
  {
    if w.moveDate.None? {
      MissingMoveDateBecomesEpoch(w);
    }
  }

  /** Server.UpdateOrder: validation first; a handler error becomes Unknown;
      success is the empty response. */
  function UpdateOrder(validate: UpdateOrderRequest -> Option<Error>,
                       update: UpdateOrderRequest -> Option<Error>,
                       req: WireUpdateOrderRequest): (err: Option<Error>)
    ensures validate(HandlerUpdate(req)).Some? ==> err == Validate(validate(HandlerUpdate(req)))
    ensures validate(HandlerUpdate(req)).None? ==>
      (err.None? <==> update(HandlerUpdate(req)).None?)
    ensures validate(HandlerUpdate(req)).None? && update(HandlerUpdate(req)).Some? ==>
      err == Some(UnknownError(update(HandlerUpdate(req)).value, None))
  {
    var h := HandlerUpdate(req);
    match Validate(validate(h))
    case Some(e) => Some(e)
    case None =>
      match update(h)
      case Some(e) => Some(UnknownError(e, None))
      case None => None
  }

  /** Server.UpdateOrder as server.go writes it, on the as-written mapping:
      the same validation and error handling; it agrees with the corrected
      UpdateOrder whenever the request carries a move date, and otherwise
      hands the handler a 1970-01-01 move date. */
  function UpdateOrderAsWritten(validate: UpdateOrderRequest -> Option<Error>,
                                update: UpdateOrderRequest -> Option<Error>,
                                req: WireUpdateOrderRequest): (err: Option<Error>)
    ensures validate(HandlerUpdateAsWritten(req)).Some? ==> err == Validate(validate(HandlerUpdateAsWritten(req)))
    ensures validate(HandlerUpdateAsWritten(req)).None? ==>
      (err.None? <==> update(HandlerUpdateAsWritten(req)).None?)
    ensures validate(HandlerUpdateAsWritten(req)).None? && update(HandlerUpdateAsWritten(req)).Some? ==>
      err == Some(UnknownError(update(HandlerUpdateAsWritten(req)).value, None))
    ensures req.moveDate.Some? ==> err == UpdateOrder(validate, update, req)
    ensures req.moveDate.None? ==> HandlerUpdateAsWritten(req).moveDate == Some(Unix(0, 0))
  {
    AsWrittenDiffersOnlyWhenMissing(req);
    EpochIsNotZero();
    var h := HandlerUpdateAsWritten(req);
    match Validate(validate(h))
    case Some(e) => Some(e)
    case None =>
      match update(h)
      case Some(e) => Some(UnknownError(e, None))
      case None => None
  }
}
