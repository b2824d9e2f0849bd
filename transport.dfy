/** src/transport/orders/rpc.go: the orders handlers above the orders
    service. They are written against a service whose orders carry their
    timestamps and whose Orders takes a filter; that service shape is
    declared here. */
module TransportOrders {
  import opened Wrappers
  import opened Errors
  import opened GoTime
  import opened OrderUpdate
  import Svc = OrdersService

  /** The service's order as these handlers read it. */
  datatype SvcOrder = SvcOrder(
    id: nat,
    propertySize: int,
    orderStatus: int,
    moveDate: Time,
    name: string,
    email: Option<string>,
    phone: string,
    moveFrom: string,
    moveTo: string,
    additionalInfo: Option<string>,
    createdAt: Time,
    updatedAt: Time)

  datatype CreateOrderRequest = CreateOrderRequest(
    propertySize: int,
    moveDate: Time,
    name: string,
    email: Option<string>,
    phone: string,
    moveFrom: string,
    moveTo: string,
    additionalInfo: Option<string>)

  datatype Order = Order(
    id: nat,
    propertySize: int,
    orderStatus: int,
    moveDate: Time,
    name: string,
    email: Option<string>,
    phone: string,
    moveFrom: string,
    moveTo: string,
    additionalInfo: Option<string>,
    createdAt: Time,
    updatedAt: Time)

  /** The filter of the handler and of the service (the same six fields). */
  datatype Filter = Filter(
    orderStatus: Option<int>,
    propertySize: Option<int>,
    createdFrom: Option<Time>,
    createdTo: Option<Time>,
    moveDateFrom: Option<Time>,
    moveDateTo: Option<Time>)

  function ToService(req: CreateOrderRequest): (r: Svc.CreateOrderRequest)
    ensures r.propertySize == req.propertySize && r.moveDate == req.moveDate && r.name == req.name
    ensures r.email == req.email && r.phone == req.phone && r.moveFrom == req.moveFrom
    ensures r.moveTo == req.moveTo && r.additionalInfo == req.additionalInfo
  {
    Svc.CreateOrderRequest(req.propertySize, req.moveDate, req.name, req.email, req.phone,
                           req.moveFrom, req.moveTo, req.additionalInfo)
  }

  /** The response copy, timestamps included. */
  function FromService(o: SvcOrder): (r: Order)
    ensures r.id == o.id && r.propertySize == o.propertySize && r.orderStatus == o.orderStatus
    ensures r.moveDate == o.moveDate && r.name == o.name && r.email == o.email && r.phone == o.phone
    ensures r.moveFrom == o.moveFrom && r.moveTo == o.moveTo && r.additionalInfo == o.additionalInfo
    ensures r.createdAt == o.createdAt && r.updatedAt == o.updatedAt
  {
    Order(o.id, o.propertySize, o.orderStatus, o.moveDate, o.name, o.email, o.phone,
          o.moveFrom, o.moveTo, o.additionalInfo, o.createdAt, o.updatedAt)
  }

  /** Handlers.CreateOrder; `create` is the service. */
  function CreateOrder(create: Svc.CreateOrderRequest -> Result<SvcOrder>, req: CreateOrderRequest): (r: Result<Order>)
    ensures create(ToService(req)).Err? ==> r == Err(Wrapped("failed create order | ", create(ToService(req)).error))
    ensures create(ToService(req)).Ok? ==> r == Ok(FromService(create(ToService(req)).value))
  {
    match create(ToService(req))
    case Err(e) => Err(Wrapped("failed create order | ", e))
    case Ok(o) => Ok(FromService(o))
  }

  /** A time bound is kept when it is set and not the zero time. */
  predicate Bound(t: Option<Time>) {
    t.Some? && !IsZero(t.value)
  }

  predicate AllAbsent(f: Filter) {
    f.orderStatus.None? && f.propertySize.None? && f.createdFrom.None?
    && f.createdTo.None? && f.moveDateFrom.None? && f.moveDateTo.None?
  }

  /** A filter as normalizeFilter leaves it: no zero bound, something set. */
  predicate Normal(f: Filter) {
    !AllAbsent(f)
    && (f.createdFrom.Some? ==> Bound(f.createdFrom)) && (f.createdTo.Some? ==> Bound(f.createdTo))
    && (f.moveDateFrom.Some? ==> Bound(f.moveDateFrom)) && (f.moveDateTo.Some? ==> Bound(f.moveDateTo))
  }

  function KeepBound(t: Option<Time>): (r: Option<Time>)
    ensures r.Some? <==> Bound(t)
    ensures r.Some? ==> r == t
  {
    if Bound(t) then t else None
  }

  /** normalizeFilter */
  function NormalizeFilter(filter: Option<Filter>): (r: Option<Filter>)
    ensures filter.None? ==> r.None?
    ensures filter.Some? ==>
      var f := filter.value;
      (r.None? <==> f.orderStatus.None? && f.propertySize.None? && !Bound(f.createdFrom)
                    && !Bound(f.createdTo) && !Bound(f.moveDateFrom) && !Bound(f.moveDateTo))
    ensures r.Some? ==> Normal(r.value)
    ensures r.Some? ==>
      var f := filter.value;
      r.value.orderStatus == f.orderStatus && r.value.propertySize == f.propertySize
      && (r.value.createdFrom.Some? <==> Bound(f.createdFrom)) && (r.value.createdTo.Some? <==> Bound(f.createdTo))
      && (r.value.moveDateFrom.Some? <==> Bound(f.moveDateFrom)) && (r.value.moveDateTo.Some? <==> Bound(f.moveDateTo))
      && (r.value.createdFrom.Some? ==> r.value.createdFrom == f.createdFrom)
      && (r.value.createdTo.Some? ==> r.value.createdTo == f.createdTo)
      && (r.value.moveDateFrom.Some? ==> r.value.moveDateFrom == f.moveDateFrom)
      && (r.value.moveDateTo.Some? ==> r.value.moveDateTo == f.moveDateTo)
  {
    if filter.None? then None
    else
      var f := filter.value;
      var n := Filter(f.orderStatus, f.propertySize, KeepBound(f.createdFrom), KeepBound(f.createdTo),
                      KeepBound(f.moveDateFrom), KeepBound(f.moveDateTo));
      if AllAbsent(n) then None else Some(n)
  }

  /** Normalising twice is normalising once: a normal filter is its own
      normal form, and only normal filters (or none) come out. */
  lemma NormalizeIdempotent(filter: Option<Filter>)
    ensures NormalizeFilter(NormalizeFilter(filter)) == NormalizeFilter(filter)
    ensures forall f: Filter :: Normal(f) ==> NormalizeFilter(Some(f)) == Some(f)
  {
  }

  /** A code pointer to Unknown is kept: it still filters. */
  lemma UnknownCodesKept(f: Filter)
    requires f.orderStatus == Some(0)
    ensures NormalizeFilter(Some(f)).Some? && NormalizeFilter(Some(f)).value.orderStatus == Some(0)
  {
  }

  /** Handlers.Orders; `list` is the service's Orders. Service NotFound and
      an empty list are both this layer's NotFound. */
  method Orders(list: Option<Filter> -> Result<seq<SvcOrder>>, filter: Option<Filter>) returns (r: Result<seq<Order>>)
    ensures var listed := list(NormalizeFilter(filter));
      listed.Err? ==>
        r == Err(Translate(listed.error, OrdersServiceNotFound, OrdersTransportNotFound, "failed get all order | "))
    ensures var listed := list(NormalizeFilter(filter));
      listed.Ok? && |listed.value| == 0 ==> r == Err(Sentinel(OrdersTransportNotFound))
    ensures var listed := list(NormalizeFilter(filter));
      listed.Ok? && |listed.value| > 0 ==>
        r.Ok? && |r.value| == |listed.value| && forall i :: 0 <= i < |r.value| ==> r.value[i] == FromService(listed.value[i])
  {
    var svcFilter := NormalizeFilter(filter);
    var listed := list(svcFilter);
    if listed.Err? {
      return Err(Translate(listed.error, OrdersServiceNotFound, OrdersTransportNotFound, "failed get all order | "));
    }
    var svcOrders := listed.value;
    var orders: seq<Order> := [];
    for i := 0 to |svcOrders|
      invariant |orders| == i
      invariant forall k :: 0 <= k < i ==> orders[k] == FromService(svcOrders[k])
    {
      orders := orders + [FromService(svcOrders[i])];
    }
    if |orders| == 0 {
      return Err(Sentinel(OrdersTransportNotFound));
    }
    return Ok(orders);
  }

  /** Handlers.OrderByID; `found` is the service's answer. */
  function OrderByID(found: Result<SvcOrder>): (r: Result<Order>)
    ensures found.Ok? ==> r == Ok(FromService(found.value))
    ensures found.Err? && Is(found.error, OrdersServiceNotFound) ==> r == Err(Sentinel(OrdersTransportNotFound))
    ensures found.Err? && !Is(found.error, OrdersServiceNotFound) ==> r == Err(Wrapped("failed get order | ", found.error))
  {
    match found
    case Ok(o) => Ok(FromService(o))
    case Err(e) => Err(Translate(e, OrdersServiceNotFound, OrdersTransportNotFound, "failed get order | "))
  }

  /** Handlers.UpdateOrder; `update` is the service. */
  function UpdateOrder(update: UpdateOrderRequest -> Option<Error>, req: UpdateOrderRequest): (err: Option<Error>)
    ensures err.None? <==> update(DropUnknownEnums(req)).None?
    ensures err.Some? ==> err.value == Wrapped("failed update order | ", update(DropUnknownEnums(req)).value)
  {
    match update(DropUnknownEnums(req))
    case None => None
    case Some(e) => Some(Wrapped("failed update order | ", e))
  }
}

/** src/transport/reviews/rpc.go */
module TransportReviews {
  import opened Errors
  import Svc = ReviewsService

  datatype Review = Review(text: string, name: string, photoURL: string, rate: int)

  function FromService(v: Svc.Review): (r: Review)
    ensures r.text == v.text && r.name == v.name && r.photoURL == v.photoURL && r.rate == v.rate
  {
    Review(v.text, v.name, v.photoURL, v.rate)
  }

  /** Handlers.Reviews: an empty list is returned as it is. */
  method Reviews(listed: Result<seq<Svc.Review>>) returns (r: Result<seq<Review>>)
    ensures listed.Err? ==>
      r == Err(Translate(listed.error, ReviewsServiceNotFound, ReviewsTransportNotFound, "failed get reviews | "))
    ensures listed.Ok? ==>
      r.Ok? && |r.value| == |listed.value| && forall i :: 0 <= i < |r.value| ==> r.value[i] == FromService(listed.value[i])
  {
    if listed.Err? {
      return Err(Translate(listed.error, ReviewsServiceNotFound, ReviewsTransportNotFound, "failed get reviews | "));
    }
    var svcReviews := listed.value;
    var reviews: seq<Review> := [];
    for i := 0 to |svcReviews|
      invariant |reviews| == i
      invariant forall k :: 0 <= k < i ==> reviews[k] == FromService(svcReviews[k])
    {
      reviews := reviews + [FromService(svcReviews[i])];
    }
    return Ok(reviews);
  }
}
