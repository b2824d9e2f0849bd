/** src/services/orders/service.go: the orders use cases over the orders
    adapter, which is passed in as the results of its calls. */
module OrdersService {
  import opened Wrappers
  import opened Errors
  import opened GoTime
  import opened OrderUpdate
  import Repo = OrdersRepo

  datatype CreateOrderRequest = CreateOrderRequest(
    propertySize: int,
    moveDate: Time,
    name: string,
    email: Option<string>,
    phone: string,
    moveFrom: string,
    moveTo: string,
    additionalInfo: Option<string>)

  /** The service's order: the stored order without its timestamps. */
  datatype Order = Order(
    id: nat,
    propertySize: int,
    orderStatus: int,
    moveDate: Time,
    name: string,
    email: Option<string>,
    phone: string,
    moveFrom: string,
    moveTo: string,
    additionalInfo: Option<string>)

  /** The copy out of a stored order; the code casts keep the value. */
  function FromRepo(o: Repo.Order): (r: Order)
    ensures r.id == o.id && r.propertySize == o.propertySize && r.orderStatus == o.orderStatus
    ensures r.moveDate == o.moveDate && r.name == o.name && r.email == o.email && r.phone == o.phone
    ensures r.moveFrom == o.moveFrom && r.moveTo == o.moveTo && r.additionalInfo == o.additionalInfo
  {
    Order(o.id, o.propertySize, o.orderStatus, o.moveDate, o.name, o.email, o.phone,
          o.moveFrom, o.moveTo, o.additionalInfo)
  }

  /** The copy into the adapter's request: every field kept. */
  function ToRepo(req: CreateOrderRequest): (r: Repo.CreateOrderRequest)
    ensures r.propertySize == req.propertySize && r.moveDate == req.moveDate && r.name == req.name
    ensures r.email == req.email && r.phone == req.phone && r.moveFrom == req.moveFrom
    ensures r.moveTo == req.moveTo && r.additionalInfo == req.additionalInfo
  {
    Repo.CreateOrderRequest(req.propertySize, req.moveDate, req.name, req.email, req.phone,
                            req.moveFrom, req.moveTo, req.additionalInfo)
  }

  /** CreateOrder; `create` is the adapter. */
  function CreateOrder(create: Repo.CreateOrderRequest -> Result<Repo.Order>, req: CreateOrderRequest): (r: Result<Order>)
    ensures create(ToRepo(req)).Err? ==> r == Err(Wrapped("failed to create order | ", create(ToRepo(req)).error))
    ensures create(ToRepo(req)).Ok? ==> r == Ok(FromRepo(create(ToRepo(req)).value))
  {
    match create(ToRepo(req))
    case Err(e) => Err(Wrapped("failed to create order | ", e))
    case Ok(o) => Ok(FromRepo(o))
  }

  /** Orders; `listed` is what the adapter's Orders returned. The adapter's
      NotFound becomes the service's own; orders keep their order. */
  method Orders(listed: Result<seq<Repo.Order>>) returns (r: Result<seq<Order>>)
    ensures listed.Err? ==>
      r == Err(Translate(listed.error, OrdersRepoNotFound, OrdersServiceNotFound, "failed to get all orders | "))
    ensures listed.Ok? ==>
      r.Ok? && |r.value| == |listed.value| && forall i :: 0 <= i < |r.value| ==> r.value[i] == FromRepo(listed.value[i])
  {
    if listed.Err? {
      return Err(Translate(listed.error, OrdersRepoNotFound, OrdersServiceNotFound, "failed to get all orders | "));
    }
    var repoOrders := listed.value;
    var orders: seq<Order> := [];
    for i := 0 to |repoOrders|
      invariant |orders| == i
      invariant forall k :: 0 <= k < i ==> orders[k] == FromRepo(repoOrders[k])
    {
      orders := orders + [FromRepo(repoOrders[i])];
    }
    return Ok(orders);
  }

  /** OrderByID; `found` is what the adapter's OrderByID returned. */
  function OrderByID(found: Result<Repo.Order>): (r: Result<Order>)
    ensures found.Ok? ==> r == Ok(FromRepo(found.value))
    ensures found.Err? && Is(found.error, OrdersRepoNotFound) ==> r == Err(Sentinel(OrdersServiceNotFound))
    ensures found.Err? && !Is(found.error, OrdersRepoNotFound) ==>
      r == Err(Wrapped("failed to get order by id | ", found.error))
  {
    match found
    case Ok(o) => Ok(FromRepo(o))
    case Err(e) => Err(Translate(e, OrdersRepoNotFound, OrdersServiceNotFound, "failed to get order by id | "))
  }

  /** UpdateOrder: a present Unknown code is dropped on the way down;
      `update` is the adapter. */
  function UpdateOrder(update: UpdateOrderRequest -> Option<Error>, req: UpdateOrderRequest): (err: Option<Error>)
    ensures err.None? <==> update(DropUnknownEnums(req)).None?
    ensures err.Some? ==> err.value == Wrapped("failed to update order | ", update(DropUnknownEnums(req)).value)
  {
    match update(DropUnknownEnums(req))
    case None => None
    case Some(e) => Some(Wrapped("failed to update order | ", e))
  }
}

/** src/services/moving/service.go: the older use cases over the moving
    adapter. Its storage interface calls the listing GetOrders; the adapter
    shown names it AllOrders with the same results. */
module MovingService {
  import opened Wrappers
  import opened Errors
  import opened GoTime
  import opened OrderUpdate
  import Repo = MovingRepo

  const ServiceName: string := "moving-service"

  datatype CreateOrderRequest = CreateOrderRequest(
    propertySize: int,
    moveDate: Time,
    name: string,
    email: string,
    phone: string,
    moveFrom: string,
    moveTo: string,
    additionalInfo: Option<string>)

  datatype Order = Order(
    id: nat,
    propertySize: int,
    orderStatus: int,
    moveDate: Time,
    name: string,
    email: string,
    phone: string,
    moveFrom: string,
    moveTo: string,
    additionalInfo: Option<string>)

  function FromRepo(o: Repo.Order): (r: Order)
    ensures r.id == o.id && r.propertySize == o.propertySize && r.orderStatus == o.orderStatus
    ensures r.moveDate == o.moveDate && r.name == o.name && r.email == o.email && r.phone == o.phone
    ensures r.moveFrom == o.moveFrom && r.moveTo == o.moveTo && r.additionalInfo == o.additionalInfo
  {
    Order(o.id, o.propertySize, o.orderStatus, o.moveDate, o.name, o.email, o.phone,
          o.moveFrom, o.moveTo, o.additionalInfo)
  }

  function ToRepo(req: CreateOrderRequest): (r: Repo.CreateOrderRequest)
    ensures r.propertySize == req.propertySize && r.moveDate == req.moveDate && r.name == req.name
    ensures r.email == req.email && r.phone == req.phone && r.moveFrom == req.moveFrom
    ensures r.moveTo == req.moveTo && r.additionalInfo == req.additionalInfo
  {
    Repo.CreateOrderRequest(req.propertySize, req.moveDate, req.name, req.email, req.phone,
                            req.moveFrom, req.moveTo, req.additionalInfo)
  }

  function CreateOrder(create: Repo.CreateOrderRequest -> Result<Repo.Order>, req: CreateOrderRequest): (r: Result<Order>)
    ensures create(ToRepo(req)).Err? ==> r == Err(Wrapped("failed to create order | ", create(ToRepo(req)).error))
    ensures create(ToRepo(req)).Ok? ==> r == Ok(FromRepo(create(ToRepo(req)).value))
  {
    match create(ToRepo(req))
    case Err(e) => Err(Wrapped("failed to create order | ", e))
    case Ok(o) => Ok(FromRepo(o))
  }

  /** GetOrders: every error is wrapped, none is translated; an empty list
      stays empty. */
  method GetOrders(listed: Result<seq<Repo.Order>>) returns (r: Result<seq<Order>>)
    ensures listed.Err? ==> r == Err(Wrapped("failed to get all order | ", listed.error))
    ensures listed.Ok? ==>
      r.Ok? && |r.value| == |listed.value| && forall i :: 0 <= i < |r.value| ==> r.value[i] == FromRepo(listed.value[i])
  {
    if listed.Err? {
      return Err(Wrapped("failed to get all order | ", listed.error));
    }
    var repoOrders := listed.value;
    var orders: seq<Order> := [];
    for i := 0 to |repoOrders|
      invariant |orders| == i
      invariant forall k :: 0 <= k < i ==> orders[k] == FromRepo(repoOrders[k])
    {
      orders := orders + [FromRepo(repoOrders[i])];
    }
    return Ok(orders);
  }

  function UpdateOrder(update: UpdateOrderRequest -> Option<Error>, req: UpdateOrderRequest): (err: Option<Error>)
    ensures err.None? <==> update(DropUnknownEnums(req)).None?
    ensures err.Some? ==> err.value == Wrapped("failed to update order | ", update(DropUnknownEnums(req)).value)
  {
    match update(DropUnknownEnums(req))
    case None => None
    case Some(e) => Some(Wrapped("failed to update order | ", e))
  }
}

/** src/services/reviews/service.go */
module ReviewsService {
  import opened Errors
  import Repo = ReviewsRepo

  /** The public part of a review. */
  datatype Review = Review(text: string, name: string, photoURL: string, rate: int)

  function Project(r: Repo.Review): (v: Review)
    ensures v.text == r.text && v.name == r.name && v.photoURL == r.photoURL && v.rate == r.rate
  {
    Review(r.text, r.name, r.photoURL, r.rate)
  }

  /** Reviews; `listed` is what the adapter returned. */
  method Reviews(listed: Result<seq<Repo.Review>>) returns (r: Result<seq<Review>>)
    ensures listed.Err? ==>
      r == Err(Translate(listed.error, ReviewsRepoNotFound, ReviewsServiceNotFound, "failed to get all reviews | "))
    ensures listed.Ok? ==>
      r.Ok? && |r.value| == |listed.value| && forall i :: 0 <= i < |r.value| ==> r.value[i] == Project(listed.value[i])
  {
    if listed.Err? {
      return Err(Translate(listed.error, ReviewsRepoNotFound, ReviewsServiceNotFound, "failed to get all reviews | "));
    }
    var repoReviews := listed.value;
    var reviews: seq<Review> := [];
    for i := 0 to |repoReviews|
      invariant |reviews| == i
      invariant forall k :: 0 <= k < i ==> reviews[k] == Project(repoReviews[k])
    {
      reviews := reviews + [Project(repoReviews[i])];
    }
    return Ok(reviews);
  }
}

/** src/services/example/service.go: the template service; its storage is
    passed in as the answers of its calls. */
module ExampleService {
  import opened Wrappers
  import opened Errors

  const ServiceName: string := "example-service"

  /** NewService registers the service's own name; `register` is the
      storage's RegisterService. */
  function NewService(register: string -> Option<Error>): (err: Option<Error>)
    ensures err.None? <==> register(ServiceName).None?
    ensures err.Some? ==> err.value == Wrapped("failed register service | ", register(ServiceName).value)
  {
    match register(ServiceName)
    case None => None
    case Some(e) => Some(Wrapped("failed register service | ", e))
  }

  /** ServiceName; `stored` is the storage's answer. */
  function GetServiceName(stored: Result<string>): (r: Result<string>)
    ensures stored.Ok? ==> r == stored
    ensures stored.Err? && Is(stored.error, ExampleRepoNotFound) ==> r == Err(Sentinel(ExampleServiceNotFound))
    ensures stored.Err? && !Is(stored.error, ExampleRepoNotFound) ==> r == Err(Wrapped("cannot auth | ", stored.error))
  {
    match stored
    case Ok(name) => Ok(name)
    case Err(e) => Err(Translate(e, ExampleRepoNotFound, ExampleServiceNotFound, "cannot auth | "))
  }

  /** Exists; `lookup` is the storage's Exists, asked about the caller's
      service name. */
  function Exists(lookup: string -> Result<bool>, serviceName: string): (r: Result<bool>)
    ensures lookup(serviceName).Ok? ==> r == lookup(serviceName)
    ensures lookup(serviceName).Err? ==> r == Err(Wrapped("cannot auth | ", lookup(serviceName).error))
  {
    match lookup(serviceName)
    case Ok(b) => Ok(b)
    case Err(e) => Err(Wrapped("cannot auth | ", e))
  }
}
