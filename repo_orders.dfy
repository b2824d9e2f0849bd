/** src/repositories/orders/postgres.go: the orders storage adapter over
    the moving.orders table. */
module OrdersRepo {
  import opened Wrappers
  import opened Errors
  import opened GoTime
  import opened Store
  import opened OrderUpdate
  import PropertySizes
  import OrderStatuses

  datatype CreateOrderRequest = CreateOrderRequest(
    propertySize: int,
    moveDate: Time,
    name: string,
    email: Option<string>,
    phone: string,
    moveFrom: string,
    moveTo: string,
    additionalInfo: Option<string>)

  datatype Order = Order(
    id: nat,
    propertySize: int,
    orderStatus: int,
    moveDate: Time,
    createdAt: Time,
    updatedAt: Time,
    name: string,
    email: Option<string>,
    phone: string,
    moveFrom: string,
    moveTo: string,
    additionalInfo: Option<string>)

  /** A row of moving.orders in the column order the adapter selects;
      property_size and status are stored as text. */
  datatype Row = Row(
    id: nat,
    name: string,
    email: Option<string>,
    phone: string,
    moveDate: Time,
    moveFrom: string,
    moveTo: string,
    propertySize: string,
    status: string,
    additionalInfo: Option<string>,
    createdAt: Time,
    updatedAt: Time)

  /** The scan of one selected row: columns copied, size and status decoded
      with the lenient codecs. */
  function Decode(row: Row): Order {
    Order(row.id, PropertySizes.FromString(row.propertySize), OrderStatuses.FromString(row.status),
          row.moveDate, row.createdAt, row.updatedAt, row.name, row.email, row.phone,
          row.moveFrom, row.moveTo, row.additionalInfo)
  }

  /** How the table holds an order: size and status by name. */
  function RowOf(o: Order): Row {
    Row(o.id, o.name, o.email, o.phone, o.moveDate, o.moveFrom, o.moveTo,
        PropertySizes.ToString(o.propertySize), OrderStatuses.ToString(o.orderStatus),
        o.additionalInfo, o.createdAt, o.updatedAt)
  }

  /** Codes as decoding produces them: Unknown or a known value. */
  predicate CanonicalCodes(o: Order) {
    o.propertySize == PropertySizes.Canonical(o.propertySize)
    && o.orderStatus == OrderStatuses.Canonical(o.orderStatus)
  }

  /** Every decoded order has canonical codes, and storing an order with
      canonical codes and reading it back gives the same order. */
  lemma DecodeRoundTrip(row: Row, o: Order)
    ensures CanonicalCodes(Decode(row))
    ensures CanonicalCodes(o) ==> Decode(RowOf(o)) == o
  {
    PropertySizes.DecodeEncode(o.propertySize);
    OrderStatuses.DecodeEncode(o.orderStatus);
  }

  // ---------------------------------------------------------------- create

  /** The nine arguments of the insert statement, in placeholder order. */
  datatype InsertArgs = InsertArgs(
    name: string,
    email: Option<string>,
    phone: string,
    moveDate: Time,
    moveFrom: string,
    moveTo: string,
    propertySize: int,
    status: int,
    additionalInfo: Option<string>)

  /** CreateOrder's arguments: the request's fields and the status Created,
      whatever the caller wanted. */
  function InsertArgsOf(req: CreateOrderRequest): (a: InsertArgs)
    ensures a.status == OrderStatuses.Created
    ensures RequestOf(a) == req
  {
    InsertArgs(req.name, req.email, req.phone, req.moveDate, req.moveFrom, req.moveTo,
               req.propertySize, OrderStatuses.Created, req.additionalInfo)
  }

  /** The request fields carried by insert arguments. */
  function RequestOf(a: InsertArgs): CreateOrderRequest {
    CreateOrderRequest(a.propertySize, a.moveDate, a.name, a.email, a.phone, a.moveFrom,
                       a.moveTo, a.additionalInfo)
  }

  /** CreateOrder: `insert` is the store, answering the insert ... returning
      statement with the inserted row or an error. */
  function CreateOrder(insert: InsertArgs -> Result<Row>, req: CreateOrderRequest): (r: Result<Order>)
    ensures insert(InsertArgsOf(req)).Err? ==>
      r == Err(Wrapped("failed to scan inserted order: ", insert(InsertArgsOf(req)).error))
    ensures insert(InsertArgsOf(req)).Ok? ==>
      r.Ok? && r.value == Decode(insert(InsertArgsOf(req)).value) && CanonicalCodes(r.value)
  {
    match insert(InsertArgsOf(req))
    case Err(e) => Err(Wrapped("failed to scan inserted order: ", e))
    case Ok(row) =>
      DecodeRoundTrip(row, Decode(row));
      Ok(Decode(row))
  }

  /** The row the table returns for an insert when the driver writes the
      codes by name and both timestamps are the statement's now(). */
  function InsertedRow(a: InsertArgs, id: nat, now: Time): Row {
    Row(id, a.name, a.email, a.phone, a.moveDate, a.moveFrom, a.moveTo,
        PropertySizes.ToString(a.propertySize), OrderStatuses.ToString(a.status),
        a.additionalInfo, now, now)
  }

  /** A created order has status Created, the request's fields, the size
      when it is known (Unknown otherwise), and equal timestamps. */
  lemma CreateOrderIsCreated(insert: InsertArgs -> Result<Row>, req: CreateOrderRequest, id: nat, now: Time)
    requires insert(InsertArgsOf(req)) == Ok(InsertedRow(InsertArgsOf(req), id, now))
    ensures CreateOrder(insert, req) == Ok(Order(id, PropertySizes.Canonical(req.propertySize),
      OrderStatuses.Created, req.moveDate, now, now, req.name, req.email, req.phone,
      req.moveFrom, req.moveTo, req.additionalInfo))
  {
    PropertySizes.DecodeEncode(req.propertySize);
  }

  // ------------------------------------------------------------------ list

  /** Orders newest first, as the select's order by created_at desc gives them. */
  predicate NewestFirst(orders: seq<Order>) {
    forall i, j :: 0 <= i < j < |orders| ==> NotAfter(orders[j].createdAt, orders[i].createdAt)
  }

  predicate RowsNewestFirst(scans: seq<Scan<Row>>) {
    forall i, j :: 0 <= i < j < |scans| && scans[i].Scanned? && scans[j].Scanned? ==>
      NotAfter(scans[j].row.createdAt, scans[i].row.createdAt)
  }

  /** Orders: all rows decoded in the order the store returned them; no rows
      at all is NotFound. */
  method Orders(q: Query<Row>) returns (r: Result<seq<Order>>)
    ensures q.QueryFailed? ==> r == Err(Wrapped("failed to query orders | ", q.err))
    ensures q.Queried? && FirstScanError(q.rows.scans).Some? ==>
      r == Err(Wrapped("failed scan order | ", FirstScanError(q.rows.scans).value))
    ensures q.Queried? && FirstScanError(q.rows.scans).None? && q.rows.err.Some? ==>
      r == Err(Wrapped("failed get all orders | ", q.rows.err.value))
    ensures q.Queried? && FirstScanError(q.rows.scans).None? && q.rows.err.None? && |q.rows.scans| == 0 ==>
      r == Err(Sentinel(OrdersRepoNotFound))
    ensures q.Queried? && FirstScanError(q.rows.scans).None? && q.rows.err.None? && |q.rows.scans| > 0 ==>
      r.Ok? && |r.value| == |q.rows.scans|
      && forall i :: 0 <= i < |r.value| ==> r.value[i] == Decode(q.rows.scans[i].row)
    ensures r.Ok? ==> |r.value| > 0 && (RowsNewestFirst(q.rows.scans) ==> NewestFirst(r.value))
  {
    if q.QueryFailed? {
      return Err(Wrapped("failed to query orders | ", q.err));
    }
    var scans := q.rows.scans;
    var orders: seq<Order> := [];
    var i := 0;
    while i < |scans|
      invariant 0 <= i <= |scans|
      invariant forall k :: 0 <= k < i ==> scans[k].Scanned?
      invariant |orders| == i
      invariant forall k :: 0 <= k < i ==> orders[k] == Decode(scans[k].row)
    {
      match scans[i]
      case ScanFailed(e) =>
        FirstScanErrorAt(scans, i);
        return Err(Wrapped("failed scan order | ", e));
      case Scanned(row) =>
        orders := orders + [Decode(row)];
      i := i + 1;
    }
    if q.rows.err.Some? {
      return Err(Wrapped("failed get all orders | ", q.rows.err.value));
    }
    if |orders| == 0 {
      return Err(Sentinel(OrdersRepoNotFound));
    }
    return Ok(orders);
  }

  // ------------------------------------------------------------- get by id

  /** The table, keyed by id (the primary key). */
  predicate TableValid(table: map<nat, Row>) {
    forall id :: id in table ==> table[id].id == id
  }

  /** select ... where id = $1 through QueryRow: the row, or pgx.ErrNoRows. */
  function SelectByID(table: map<nat, Row>, id: nat): Result<Row> {
    if id in table then Ok(table[id]) else Err(Sentinel(PgxNoRows))
  }

  /** OrderByID: no row is NotFound, every other scan error is wrapped. */
  function OrderByID(row: Result<Row>): (r: Result<Order>)
    ensures row.Ok? ==> r == Ok(Decode(row.value))
    ensures row.Err? && Is(row.error, PgxNoRows) ==> r == Err(Sentinel(OrdersRepoNotFound))
    ensures row.Err? && !Is(row.error, PgxNoRows) ==> r == Err(Wrapped("failed scan order | ", row.error))
  {
    match row
    case Ok(rw) => Ok(Decode(rw))
    case Err(e) => Err(Translate(e, PgxNoRows, OrdersRepoNotFound, "failed scan order | "))
  }

  /** Looking an id up in the table: NotFound exactly when no row has it. */
  lemma OrderByIDInTable(table: map<nat, Row>, id: nat)
    requires TableValid(table)
    ensures OrderByID(SelectByID(table, id)) == Err(Sentinel(OrdersRepoNotFound)) <==> id !in table
    ensures id in table ==>
      OrderByID(SelectByID(table, id)) == Ok(Decode(table[id])) && Decode(table[id]).id == id
  {
  }

  // ---------------------------------------------------------------- update

  /** The ten arguments of the coalesce update: size and status already
      turned into their names, then the id. */
  datatype UpdateArgs = UpdateArgs(
    propertySize: Option<string>,
    status: Option<string>,
    moveDate: Option<Time>,
    name: Option<string>,
    email: Option<string>,
    phone: Option<string>,
    moveFrom: Option<string>,
    moveTo: Option<string>,
    additionalInfo: Option<string>,
    id: nat)

  function NameOfSize(p: Option<int>): (r: Option<string>)
    ensures r.Some? <==> p.Some?
    ensures p.Some? ==> r.value == PropertySizes.ToString(p.value)
  {
    if p.Some? then Some(PropertySizes.ToString(p.value)) else None
  }

  function NameOfStatus(s: Option<int>): (r: Option<string>)
    ensures r.Some? <==> s.Some?
    ensures s.Some? ==> r.value == OrderStatuses.ToString(s.value)
  {
    if s.Some? then Some(OrderStatuses.ToString(s.value)) else None
  }

  function UpdateArgsOf(req: UpdateOrderRequest): UpdateArgs {
    UpdateArgs(NameOfSize(req.propertySize), NameOfStatus(req.orderStatus), req.moveDate,
               req.name, req.email, req.phone, req.moveFrom, req.moveTo, req.additionalInfo, req.id)
  }

  /** UpdateOrder: ID 0 is refused before anything reaches the store; a
      request with no field present is not refused. `exec` is the store. */
  function UpdateOrder(exec: UpdateArgs -> Option<Error>, req: UpdateOrderRequest): (err: Option<Error>)
    ensures req.id == 0 ==> err == Some(Plain("invalid id"))
    ensures req.id != 0 ==> (err.None? <==> exec(UpdateArgsOf(req)).None?)
    ensures req.id != 0 && err.Some? ==>
      err.value == Wrapped("failed update row | ", exec(UpdateArgsOf(req)).value)
  {
    if req.id == 0 then Some(Plain("invalid id"))
    else match exec(UpdateArgsOf(req))
      case None => None
      case Some(e) => Some(Wrapped("failed update row | ", e))
  }

  /** coalesce($k, column) */
  function Coalesce<T>(arg: Option<T>, column: T): T {
    if arg.Some? then arg.value else column
  }

  /** nullif($k, '') */
  function NullIfEmpty(arg: Option<string>): Option<string> {
    if arg == Some("") then None else arg
  }

  /** The update statement's effect on the row it matches. */
  function ApplyUpdate(row: Row, a: UpdateArgs, now: Time): (r: Row)
    ensures r.id == row.id && r.createdAt == row.createdAt && r.updatedAt == now
    ensures r.propertySize == (if a.propertySize.Some? then a.propertySize.value else row.propertySize)
    ensures r.status == (if a.status.Some? then a.status.value else row.status)
    ensures r.moveDate == (if a.moveDate.Some? then a.moveDate.value else row.moveDate)
    ensures r.name == (if Supplied(a.name) then a.name.value else row.name)
    ensures r.email == (if Supplied(a.email) then a.email else row.email)
    ensures r.phone == (if Supplied(a.phone) then a.phone.value else row.phone)
    ensures r.moveFrom == (if Supplied(a.moveFrom) then a.moveFrom.value else row.moveFrom)
    ensures r.moveTo == (if Supplied(a.moveTo) then a.moveTo.value else row.moveTo)
    ensures r.additionalInfo == (if a.additionalInfo.Some? then a.additionalInfo else row.additionalInfo)
  {
    row.(propertySize := Coalesce(a.propertySize, row.propertySize),
         status := Coalesce(a.status, row.status),
         moveDate := Coalesce(a.moveDate, row.moveDate),
         name := Coalesce(NullIfEmpty(a.name), row.name),
         email := if NullIfEmpty(a.email).Some? then NullIfEmpty(a.email) else row.email,
         phone := Coalesce(NullIfEmpty(a.phone), row.phone),
         moveFrom := Coalesce(NullIfEmpty(a.moveFrom), row.moveFrom),
         moveTo := Coalesce(NullIfEmpty(a.moveTo), row.moveTo),
         additionalInfo := if a.additionalInfo.Some? then a.additionalInfo else row.additionalInfo,
         updatedAt := now)
  }

  /** The statement on the table: `where id = $10` matches at most one row;
      an id with no row changes nothing and is not an error. */
  function ExecUpdate(table: map<nat, Row>, a: UpdateArgs, now: Time): (t: map<nat, Row>)
    requires TableValid(table)
    ensures TableValid(t) && t.Keys == table.Keys
    ensures forall id :: id in table && id != a.id ==> t[id] == table[id]
    ensures a.id !in table ==> t == table
  {
    if a.id in table then table[a.id := ApplyUpdate(table[a.id], a, now)] else table
  }

  /** A text field counts as supplied when present and non-empty. */
  predicate Supplied(v: Option<string>) {
    v.Some? && v.value != ""
  }

  /** The sparse patch as an application sees it: a supplied field replaces
      the stored value, everything else is kept, updated_at is refreshed.
      Sizes and statuses are stored by name, so they read back canonical;
      additional_info is replaced even by an empty text. */
  function Patched(o: Order, req: UpdateOrderRequest, now: Time): Order {
    o.(propertySize := if req.propertySize.Some? then PropertySizes.Canonical(req.propertySize.value) else o.propertySize,
       orderStatus := if req.orderStatus.Some? then OrderStatuses.Canonical(req.orderStatus.value) else o.orderStatus,
       moveDate := if req.moveDate.Some? then req.moveDate.value else o.moveDate,
       name := if Supplied(req.name) then req.name.value else o.name,
       email := if Supplied(req.email) then req.email else o.email,
       phone := if Supplied(req.phone) then req.phone.value else o.phone,
       moveFrom := if Supplied(req.moveFrom) then req.moveFrom.value else o.moveFrom,
       moveTo := if Supplied(req.moveTo) then req.moveTo.value else o.moveTo,
       additionalInfo := if req.additionalInfo.Some? then req.additionalInfo else o.additionalInfo,
       updatedAt := now)
  }

  /** The coalesce/nullif statement implements the sparse patch: reading the
      updated row back gives the patched order. */
  lemma {:induction false} UpdateImplementsPatch(o: Order, req: UpdateOrderRequest, now: Time)
    requires CanonicalCodes(o)
    ensures Decode(ApplyUpdate(RowOf(o), UpdateArgsOf(req), now)) == Patched(o, req, now)
  {
    DecodeRoundTrip(RowOf(o), o);
    if req.propertySize.Some? { PropertySizes.DecodeEncode(req.propertySize.value); }
    if req.orderStatus.Some? { OrderStatuses.DecodeEncode(req.orderStatus.value); }
  }

  /** Updating only the phone of a stored order changes the phone and
      updated_at and nothing else. */
  lemma PhoneOnlyUpdate(table: map<nat, Row>, o: Order, phone: string, now: Time)
    requires TableValid(table) && CanonicalCodes(o) && o.id in table && table[o.id] == RowOf(o)
    requires phone != ""
    ensures var req := UpdateOrderRequest(o.id, None, None, None, None, None, Some(phone), None, None, None);
      OrderByID(SelectByID(ExecUpdate(table, UpdateArgsOf(req), now), o.id))
        == Ok(o.(phone := phone, updatedAt := now))
  {
    var req := UpdateOrderRequest(o.id, None, None, None, None, None, Some(phone), None, None, None);
    UpdateImplementsPatch(o, req, now);
  }

  /** A request with every field absent is accepted and only refreshes updated_at. */
  lemma EmptyPatchRefreshesOnly(o: Order, id: nat, now: Time)
    requires CanonicalCodes(o)
    ensures var req := UpdateOrderRequest(id, None, None, None, None, None, None, None, None, None);
      Decode(ApplyUpdate(RowOf(o), UpdateArgsOf(req), now)) == o.(updatedAt := now)
  {
    var req := UpdateOrderRequest(id, None, None, None, None, None, None, None, None, None);
    UpdateImplementsPatch(o, req, now);
  }
}
