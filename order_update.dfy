/** The sparse-patch request. Every layer declares a structurally identical
    UpdateOrderRequest (an ID and nine optional fields), so the model has
    one shape for all of them. */
module OrderUpdate {
  import opened Wrappers
  import opened GoTime
  import Utils

  datatype UpdateOrderRequest = UpdateOrderRequest(
    id: nat,
    propertySize: Option<int>,
    orderStatus: Option<int>,
    moveDate: Option<Time>,
    name: Option<string>,
    email: Option<string>,
    phone: Option<string>,
    moveFrom: Option<string>,
    moveTo: Option<string>,
    additionalInfo: Option<string>)

  /** if c != nil { PtrIfNotZero(code(*c)) } : a present code 0 (Unknown)
      becomes absent. */
  function DropZeroCode(c: Option<int>): (r: Option<int>)
    ensures r.None? <==> c.None? || c == Some(0)
    ensures r.Some? ==> r == c
  {
    if c.Some? then Utils.PtrIfNotZeroCode(c.value) else None
  }

  /** No enum field of the request is a present Unknown. */
  predicate NoUnknownEnums(req: UpdateOrderRequest) {
    req.propertySize != Some(0) && req.orderStatus != Some(0)
  }

  /** The mapping every layer applies to an update on its way down: a
      present Unknown size or status becomes absent; the ID and the other
      eight fields pass through unchanged. */
  function DropUnknownEnums(req: UpdateOrderRequest): (r: UpdateOrderRequest)
    ensures NoUnknownEnums(r)
    ensures r.propertySize.None? <==> req.propertySize.None? || req.propertySize == Some(0)
    ensures r.orderStatus.None? <==> req.orderStatus.None? || req.orderStatus == Some(0)
    ensures r.propertySize.Some? ==> r.propertySize == req.propertySize
    ensures r.orderStatus.Some? ==> r.orderStatus == req.orderStatus
    ensures r.(propertySize := req.propertySize, orderStatus := req.orderStatus) == req
  {
    req.(propertySize := DropZeroCode(req.propertySize), orderStatus := DropZeroCode(req.orderStatus))
  }

  /** The mapping leaves a request without Unknown enums alone, so applying
      it at several layers is the same as applying it once. */
  lemma DropUnknownEnumsIdempotent(req: UpdateOrderRequest)
    ensures NoUnknownEnums(req) ==> DropUnknownEnums(req) == req
    ensures DropUnknownEnums(DropUnknownEnums(req)) == DropUnknownEnums(req)
  {
  }
}
