/** Properties of the layers put together: what a request that enters at
    the top reaches the store as. */
module Pipeline {
  import opened Wrappers
  import opened Errors
  import opened GoTime
  import opened OrderUpdate
  import Server = GrpcServer
  import Rpc = RpcTransportMoving
  import Svc = MovingService
  import MovingRepo
  import OrdersSvc = OrdersService
  import OrdersRepo
  import OrderStatuses

  /** The moving service's update path: the server's handler, the moving
      rpc transport and the moving service in turn, down to the store. */
  function UpdateThroughServer(validate: UpdateOrderRequest -> Option<Error>,
                               store: UpdateOrderRequest -> Option<Error>,
                               w: Server.WireUpdateOrderRequest): Option<Error>
  {
    Server.UpdateOrder(validate, h => Rpc.UpdateOrder(r => Svc.UpdateOrder(store, r), h), w)
  }

  /** The same path with the server's update mapping as written. */
  function UpdateThroughServerAsWritten(validate: UpdateOrderRequest -> Option<Error>,
                                        store: UpdateOrderRequest -> Option<Error>,
                                        w: Server.WireUpdateOrderRequest): Option<Error>
  {
    Server.UpdateOrderAsWritten(validate, h => Rpc.UpdateOrder(r => Svc.UpdateOrder(store, r), h), w)
  }

  /** A validated update reaches the store as the server's corrected
      mapping (HandlerUpdate) of the wire request, unchanged by the layers
      in between; it succeeds exactly when the store does, and a store
      failure leaves the server as Unknown. */
  lemma UpdateReachesStore(validate: UpdateOrderRequest -> Option<Error>,
                           store: UpdateOrderRequest -> Option<Error>,
                           w: Server.WireUpdateOrderRequest)
    requires validate(Server.HandlerUpdate(w)).None?
    ensures UpdateThroughServer(validate, store, w).None? <==> store(Server.HandlerUpdate(w)).None?
    ensures UpdateThroughServer(validate, store, w).Some? ==>
      StatusCode(UpdateThroughServer(validate, store, w)) == Unknown
  {
    var h := Server.HandlerUpdate(w);
    DropUnknownEnumsIdempotent(h);
    DropUnknownEnumsIdempotent(DropUnknownEnums(h));
  }

  /** As written, a validated update reaches the store as
      HandlerUpdateAsWritten of the wire request, unchanged by the layers
      in between, so a request without a move date hands the store
      1970-01-01; it succeeds exactly when the store does. */
  lemma UpdateReachesStoreAsWritten(validate: UpdateOrderRequest -> Option<Error>,
                                    store: UpdateOrderRequest -> Option<Error>,
                                    w: Server.WireUpdateOrderRequest)
    requires validate(Server.HandlerUpdateAsWritten(w)).None?
    ensures UpdateThroughServerAsWritten(validate, store, w).None? <==> store(Server.HandlerUpdateAsWritten(w)).None?
    ensures UpdateThroughServerAsWritten(validate, store, w).Some? ==>
      StatusCode(UpdateThroughServerAsWritten(validate, store, w)) == Unknown
    ensures w.moveDate.None? ==> Server.HandlerUpdateAsWritten(w).moveDate == Some(Unix(0, 0))
  {
    var h := Server.HandlerUpdateAsWritten(w);
    Server.AsWrittenDiffersOnlyWhenMissing(w);
    if w.moveDate.None? { Server.MissingMoveDateBecomesEpoch(w); }
    assert NoUnknownEnums(h);
    DropUnknownEnumsIdempotent(h);
    DropUnknownEnumsIdempotent(DropUnknownEnums(h));
  }

  /** An update without a move date leaves the stored move date alone. As
      the server writes the mapping, the same request instead sets the
      stored move date to 1970-01-01. */
  lemma MissingMoveDateInStore(o: MovingRepo.Order, w: Server.WireUpdateOrderRequest, now: Time)
    requires w.moveDate.None?
    ensures MovingRepo.Overwritten(o, Server.HandlerUpdate(w), now).moveDate == o.moveDate
    ensures MovingRepo.Overwritten(o, DropUnknownEnums(DropUnknownEnums(Server.HandlerUpdateAsWritten(w))), now).moveDate
      == Unix(0, 0)
    ensures MovingRepo.SetMoveDate(Unix(0, 0)) in MovingRepo.Assignments(Server.HandlerUpdateAsWritten(w))
  {
    var asWritten := Server.HandlerUpdateAsWritten(w);
    Server.MissingMoveDateBecomesEpoch(w);
    DropUnknownEnumsIdempotent(asWritten);
    DropUnknownEnumsIdempotent(DropUnknownEnums(asWritten));
    assert MovingRepo.Part(asWritten, 2) == [MovingRepo.SetMoveDate(Unix(0, 0))];
    MovingRepo.PartInAssignments(asWritten, 2);
  }

  /** Through the orders service, a stored order's status becomes Unknown
      only when it already was and the request leaves it alone (or asks
      for Unknown, which the service drops), or when the request carries
      a code outside the known range. */
  lemma StoredStatusUnknown(o: OrdersRepo.Order, req: UpdateOrderRequest, now: Time)
    ensures OrdersRepo.Patched(o, DropUnknownEnums(req), now).orderStatus == OrderStatuses.Unknown <==>
      ((req.orderStatus.None? || req.orderStatus == Some(0)) && o.orderStatus == OrderStatuses.Unknown)
      || (req.orderStatus.Some? && req.orderStatus.value != 0 && !OrderStatuses.Known(req.orderStatus.value))
  {
  }
}
