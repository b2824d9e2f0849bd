/** src/rpctransport/rpc.go: the rpc-layer orders and reviews handlers. The
    file's own request and order carry a plain-text email, unlike the
    orders service shown, so the service shape these handlers are written
    against is declared here. */
module RpcTransport {
  import opened Wrappers
  import opened Errors
  import opened GoTime
  import opened OrderUpdate
  import ReviewsSvc = ReviewsService

  /** The orders service's request and order as these handlers use them. */
  datatype SvcCreateOrderRequest = SvcCreateOrderRequest(
    propertySize: int,
    moveDate: Time,
    name: string,
    email: string,
    phone: string,
    moveFrom: string,
    moveTo: string,
    additionalInfo: Option<string>)

  datatype SvcOrder = SvcOrder(
    id: nat,
    propertySize: int,
    orderStatus: int,
    moveDate: Time,
    name: string,
    email: string,
    phone: string,
    moveFrom: string,
    moveTo: string,
    additionalInfo: Option<string>)

  datatype CreateOrderRequest = CreateOrderRequest(
    propertySize: int,
    moveDate: Time,
    name: string,
    email: string,
    phone: string,
    moveFrom: string,
    moveTo: string,
    additionalInfo: Option<string>)

  datatype Order = Order(
    id: nat,
    propertySize: int,
    orderStatus: int,
    moveDate: Time,
    name: string,
    email: string,
    phone: string,
    moveFrom: string,
    moveTo: string,
    additionalInfo: Option<string>)

  function ToService(req: CreateOrderRequest): (r: SvcCreateOrderRequest)
    ensures r.propertySize == req.propertySize && r.moveDate == req.moveDate && r.name == req.name
    ensures r.email == req.email && r.phone == req.phone && r.moveFrom == req.moveFrom
    ensures r.moveTo == req.moveTo && r.additionalInfo == req.additionalInfo
  {
    SvcCreateOrderRequest(req.propertySize, req.moveDate, req.name, req.email, req.phone,
                          req.moveFrom, req.moveTo, req.additionalInfo)
  }

  function FromService(o: SvcOrder): (r: Order)
    ensures r.id == o.id && r.propertySize == o.propertySize && r.orderStatus == o.orderStatus
    ensures r.moveDate == o.moveDate && r.name == o.name && r.email == o.email && r.phone == o.phone
    ensures r.moveFrom == o.moveFrom && r.moveTo == o.moveTo && r.additionalInfo == o.additionalInfo
  {
    Order(o.id, o.propertySize, o.orderStatus, o.moveDate, o.name, o.email, o.phone,
          o.moveFrom, o.moveTo, o.additionalInfo)
  }

  /** OrdersHandlers.CreateOrder; `create` is the service. */
  function CreateOrder(create: SvcCreateOrderRequest -> Result<SvcOrder>, req: CreateOrderRequest): (r: Result<Order>)
    ensures create(ToService(req)).Err? ==> r == Err(Wrapped("failed create order | ", create(ToService(req)).error))
    ensures create(ToService(req)).Ok? ==> r == Ok(FromService(create(ToService(req)).value))
  {
    match create(ToService(req))
    case Err(e) => Err(Wrapped("failed create order | ", e))
    case Ok(o) => Ok(FromService(o))
  }

  /** OrdersHandlers.Orders: service NotFound and an empty list are both
      this layer's NotFound. */
  method Orders(listed: Result<seq<SvcOrder>>) returns (r: Result<seq<Order>>)
    ensures listed.Err? ==>
      r == Err(Translate(listed.error, OrdersServiceNotFound, RpcTransportNotFound, "failed get all order | "))
    ensures listed.Ok? && |listed.value| == 0 ==> r == Err(Sentinel(RpcTransportNotFound))
    ensures listed.Ok? && |listed.value| > 0 ==>
      r.Ok? && |r.value| == |listed.value| && forall i :: 0 <= i < |r.value| ==> r.value[i] == FromService(listed.value[i])
  {
    if listed.Err? {
      return Err(Translate(listed.error, OrdersServiceNotFound, RpcTransportNotFound, "failed get all order | "));
    }
    var svcOrders := listed.value;
    var orders: seq<Order> := [];
    for i := 0 to |svcOrders|
      invariant |orders| == i
      invariant forall k :: 0 <= k < i ==> orders[k] == FromService(svcOrders[k])
    {
      orders := orders + [FromService(svcOrders[i])];
    }
    if |orders| == 0 {
      return Err(Sentinel(RpcTransportNotFound));
    }
    return Ok(orders);
  }

  /** OrdersHandlers.OrderByID */
  function OrderByID(found: Result<SvcOrder>): (r: Result<Order>)
    ensures found.Ok? ==> r == Ok(FromService(found.value))
    ensures found.Err? && Is(found.error, OrdersServiceNotFound) ==> r == Err(Sentinel(RpcTransportNotFound))
    ensures found.Err? && !Is(found.error, OrdersServiceNotFound) ==> r == Err(Wrapped("failed get order | ", found.error))
  {
    match found
    case Ok(o) => Ok(FromService(o))
    case Err(e) => Err(Translate(e, OrdersServiceNotFound, RpcTransportNotFound, "failed get order | "))
  }

  /** OrdersHandlers.UpdateOrder */
  function UpdateOrder(update: UpdateOrderRequest -> Option<Error>, req: UpdateOrderRequest): (err: Option<Error>)
    ensures err.None? <==> update(DropUnknownEnums(req)).None?
    ensures err.Some? ==> err.value == Wrapped("failed update order | ", update(DropUnknownEnums(req)).value)
  {
    match update(DropUnknownEnums(req))
    case None => None
    case Some(e) => Some(Wrapped("failed update order | ", e))
  }

  datatype Review = Review(text: string, name: string, photoURL: string, rate: int)

  function ReviewFromService(v: ReviewsSvc.Review): (r: Review)
    ensures r.text == v.text && r.name == v.name && r.photoURL == v.photoURL && r.rate == v.rate
  {
    Review(v.text, v.name, v.photoURL, v.rate)
  }

  /** ReviewsHandlers.Reviews: an empty list is returned as it is. */
  method Reviews(listed: Result<seq<ReviewsSvc.Review>>) returns (r: Result<seq<Review>>)
    ensures listed.Err? ==>
      r == Err(Translate(listed.error, ReviewsServiceNotFound, RpcTransportNotFound, "failed get reviews | "))
    ensures listed.Ok? ==>
      r.Ok? && |r.value| == |listed.value| && forall i :: 0 <= i < |r.value| ==> r.value[i] == ReviewFromService(listed.value[i])
  {
    if listed.Err? {
      return Err(Translate(listed.error, ReviewsServiceNotFound, RpcTransportNotFound, "failed get reviews | "));
    }
    var svcReviews := listed.value;
    var reviews: seq<Review> := [];
    for i := 0 to |svcReviews|
      invariant |reviews| == i
      invariant forall k :: 0 <= k < i ==> reviews[k] == ReviewFromService(svcReviews[k])
    {
      reviews := reviews + [ReviewFromService(svcReviews[i])];
    }
    return Ok(reviews);
  }
}

/** src/rpctransport/moving/rpc.go: the older handlers over the moving service. */
module RpcTransportMoving {
  import opened Wrappers
  import opened Errors
  import opened GoTime
  import opened OrderUpdate
  import Svc = MovingService

  datatype CreateOrderRequest = CreateOrderRequest(
    propertySize: int,
    moveDate: Time,
    name: string,
    email: string,
    phone: string,
    moveFrom: string,
    moveTo: string,
    additionalInfo: Option<string>)

  datatype Order = Order(
    id: nat,
    propertySize: int,
    orderStatus: int,
    moveDate: Time,
    name: string,
    email: string,
    phone: string,
    moveFrom: string,
    moveTo: string,
    additionalInfo: Option<string>)

  function ToService(req: CreateOrderRequest): (r: Svc.CreateOrderRequest)
    ensures r.propertySize == req.propertySize && r.moveDate == req.moveDate && r.name == req.name
    ensures r.email == req.email && r.phone == req.phone && r.moveFrom == req.moveFrom
    ensures r.moveTo == req.moveTo && r.additionalInfo == req.additionalInfo
  {
    Svc.CreateOrderRequest(req.propertySize, req.moveDate, req.name, req.email, req.phone,
                           req.moveFrom, req.moveTo, req.additionalInfo)
  }

  function FromService(o: Svc.Order): (r: Order)
    ensures r.id == o.id && r.propertySize == o.propertySize && r.orderStatus == o.orderStatus
    ensures r.moveDate == o.moveDate && r.name == o.name && r.email == o.email && r.phone == o.phone
    ensures r.moveFrom == o.moveFrom && r.moveTo == o.moveTo && r.additionalInfo == o.additionalInfo
  {
    Order(o.id, o.propertySize, o.orderStatus, o.moveDate, o.name, o.email, o.phone,
          o.moveFrom, o.moveTo, o.additionalInfo)
  }

  function CreateOrder(create: Svc.CreateOrderRequest -> Result<Svc.Order>, req: CreateOrderRequest): (r: Result<Order>)
    ensures create(ToService(req)).Err? ==> r == Err(Wrapped("failed create order | ", create(ToService(req)).error))
    ensures create(ToService(req)).Ok? ==> r == Ok(FromService(create(ToService(req)).value))
  {
    match create(ToService(req))
    case Err(e) => Err(Wrapped("failed create order | ", e))
    case Ok(o) => Ok(FromService(o))
  }

  /** Handlers.GetOrders: every error wrapped, an empty list kept. */
  method GetOrders(listed: Result<seq<Svc.Order>>) returns (r: Result<seq<Order>>)
    ensures listed.Err? ==> r == Err(Wrapped("failed get all order | ", listed.error))
    ensures listed.Ok? ==>
      r.Ok? && |r.value| == |listed.value| && forall i :: 0 <= i < |r.value| ==> r.value[i] == FromService(listed.value[i])
  {
    if listed.Err? {
      return Err(Wrapped("failed get all order | ", listed.error));
    }
    var svcOrders := listed.value;
    var orders: seq<Order> := [];
    for i := 0 to |svcOrders|
      invariant |orders| == i
      invariant forall k :: 0 <= k < i ==> orders[k] == FromService(svcOrders[k])
    {
      orders := orders + [FromService(svcOrders[i])];
    }
    return Ok(orders);
  }

  function UpdateOrder(update: UpdateOrderRequest -> Option<Error>, req: UpdateOrderRequest): (err: Option<Error>)
    ensures err.None? <==> update(DropUnknownEnums(req)).None?
    ensures err.Some? ==> err.value == Wrapped("failed update order | ", update(DropUnknownEnums(req)).value)
  {
    match update(DropUnknownEnums(req))
    case None => None
    case Some(e) => Some(Wrapped("failed update order | ", e))
  }
}

/** src/rpctransport/example/rpc.go: the template's registration handlers. */
module RpcTransportExample {
  import opened Wrappers
  import opened Errors

  /** The wire enum of StatusResponse. */
  datatype RegistrationStatus = Registered | NotRegistered

  /** mapStatus */
  function MapStatus(found: bool, err: Option<Error>): (r: Result<RegistrationStatus>)
    ensures err.Some? ==> r == Err(Wrapped("cannot get status | ", err.value))
    ensures err.None? ==> r.Ok? && (r.value == Registered <==> found)
  {
    if err.Some? then Err(Wrapped("cannot get status | ", err.value))
    else if found then Ok(Registered)
    else Ok(NotRegistered)
  }

  /** Handlers.Status; `lookup` is the service's Exists, asked about the
      request's service name. A lookup error returns early, so mapStatus
      only ever sees a nil error. */
  function Status(lookup: string -> Result<bool>, serviceName: string): (r: Result<RegistrationStatus>)
    ensures lookup(serviceName).Err? ==> r == Err(Wrapped("cannot get service | ", lookup(serviceName).error))
    ensures lookup(serviceName).Ok? ==> r.Ok? && (r.value == Registered <==> lookup(serviceName).value)
  {
    match lookup(serviceName)
    case Err(e) => Err(Wrapped("cannot get service | ", e))
    case Ok(found) => MapStatus(found, None)
  }

  /** Handlers.ServiceName */
  function ServiceName(stored: Result<string>): (r: Result<string>)
    ensures stored.Ok? ==> r == stored
    ensures stored.Err? ==> r == Err(Wrapped("cannot get service name | ", stored.error))
  {
    match stored
    case Ok(name) => Ok(name)
    case Err(e) => Err(Wrapped("cannot get service name | ", e))
  }
}
