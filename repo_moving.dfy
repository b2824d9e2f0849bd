/** src/repositories/moving/postgres.go: the older storage adapter over the
    same moving.orders table, with a plain-text email and an UpdateOrder
    that builds its SET clause from the fields present. */
module MovingRepo {
  import opened Wrappers
  import opened Errors
  import opened GoTime
  import opened Store
  import opened OrderUpdate
  import opened GoFmt
  import opened GoStrings
  import PropertySizes
  import OrderStatuses

  datatype CreateOrderRequest = CreateOrderRequest(
    propertySize: int,
    moveDate: Time,
    name: string,
    email: string,
    phone: string,
    moveFrom: string,
    moveTo: string,
    additionalInfo: Option<string>)

  datatype Order = Order(
    id: nat,
    propertySize: int,
    orderStatus: int,
    moveDate: Time,
    createdAt: Time,
    updatedAt: Time,
    name: string,
    email: string,
    phone: string,
    moveFrom: string,
    moveTo: string,
    additionalInfo: Option<string>)

  /** A selected row of moving.orders, size and status as text. */
  datatype Row = Row(
    id: nat,
    name: string,
    email: string,
    phone: string,
    moveDate: Time,
    moveFrom: string,
    moveTo: string,
    propertySize: string,
    status: string,
    additionalInfo: Option<string>,
    createdAt: Time,
    updatedAt: Time)

  function Decode(row: Row): Order {
    Order(row.id, PropertySizes.FromString(row.propertySize), OrderStatuses.FromString(row.status),
          row.moveDate, row.createdAt, row.updatedAt, row.name, row.email, row.phone,
          row.moveFrom, row.moveTo, row.additionalInfo)
  }

  function RowOf(o: Order): Row {
    Row(o.id, o.name, o.email, o.phone, o.moveDate, o.moveFrom, o.moveTo,
        PropertySizes.ToString(o.propertySize), OrderStatuses.ToString(o.orderStatus),
        o.additionalInfo, o.createdAt, o.updatedAt)
  }

  predicate CanonicalCodes(o: Order) {
    o.propertySize == PropertySizes.Canonical(o.propertySize)
    && o.orderStatus == OrderStatuses.Canonical(o.orderStatus)
  }

  /** Decoded orders have canonical codes; canonical orders survive storage. */
  lemma DecodeRoundTrip(row: Row, o: Order)
    ensures CanonicalCodes(Decode(row))
    ensures CanonicalCodes(o) ==> Decode(RowOf(o)) == o
  {
    PropertySizes.DecodeEncode(o.propertySize);
    OrderStatuses.DecodeEncode(o.orderStatus);
  }

  // ---------------------------------------------------------------- create

  datatype InsertArgs = InsertArgs(
    name: string,
    email: string,
    phone: string,
    moveDate: Time,
    moveFrom: string,
    moveTo: string,
    propertySize: int,
    status: int,
    additionalInfo: Option<string>)

  /** The insert's nine arguments: the request's fields and status Created. */
  function InsertArgsOf(req: CreateOrderRequest): (a: InsertArgs)
    ensures a.status == OrderStatuses.Created
    ensures a.name == req.name && a.email == req.email && a.phone == req.phone
    ensures a.moveDate == req.moveDate && a.moveFrom == req.moveFrom && a.moveTo == req.moveTo
    ensures a.propertySize == req.propertySize && a.additionalInfo == req.additionalInfo
  {
    InsertArgs(req.name, req.email, req.phone, req.moveDate, req.moveFrom, req.moveTo,
               req.propertySize, OrderStatuses.Created, req.additionalInfo)
  }

  /** CreateOrder; `insert` is the store's answer to the insert statement. */
  function CreateOrder(insert: InsertArgs -> Result<Row>, req: CreateOrderRequest): (r: Result<Order>)
    ensures insert(InsertArgsOf(req)).Err? ==>
      r == Err(Wrapped("failed to scan inserted order: ", insert(InsertArgsOf(req)).error))
    ensures insert(InsertArgsOf(req)).Ok? ==>
      r.Ok? && r.value == Decode(insert(InsertArgsOf(req)).value) && CanonicalCodes(r.value)
  {
    match insert(InsertArgsOf(req))
    case Err(e) => Err(Wrapped("failed to scan inserted order: ", e))
    case Ok(row) =>
      DecodeRoundTrip(row, Decode(row));
      Ok(Decode(row))
  }

  // ------------------------------------------------------------------ list

  /** AllOrders over the rows the query produced: every row decoded in
      order. Unlike the orders adapter, no rows is an empty list, not
      NotFound. */
  method AllOrders(rows: Rows<Row>) returns (r: Result<seq<Order>>)
    ensures FirstScanError(rows.scans).Some? ==>
      r == Err(Wrapped("failed scan order | ", FirstScanError(rows.scans).value))
    ensures FirstScanError(rows.scans).None? && rows.err.Some? ==>
      r == Err(Wrapped("failed get all orders | ", rows.err.value))
    ensures FirstScanError(rows.scans).None? && rows.err.None? ==>
      r.Ok? && |r.value| == |rows.scans|
      && forall i :: 0 <= i < |r.value| ==> r.value[i] == Decode(rows.scans[i].row)
  {
    var orders: seq<Order> := [];
    var i := 0;
    while i < |rows.scans|
      invariant 0 <= i <= |rows.scans|
      invariant forall k :: 0 <= k < i ==> rows.scans[k].Scanned?
      invariant |orders| == i
      invariant forall k :: 0 <= k < i ==> orders[k] == Decode(rows.scans[k].row)
    {
      match rows.scans[i]
      case ScanFailed(e) =>
        FirstScanErrorAt(rows.scans, i);
        return Err(Wrapped("failed scan order | ", e));
      case Scanned(row) =>
        orders := orders + [Decode(row)];
      i := i + 1;
    }
    if rows.err.Some? {
      return Err(Wrapped("failed get all orders | ", rows.err.value));
    }
    return Ok(orders);
  }

  // ---------------------------------------------------------------- update

  /** A statement argument. */
  datatype Arg = SizeArg(size: int) | StatusArg(status: int) | TimeArg(time: Time)
               | TextArg(text: string) | IdArg(id: nat)

  /** One assignment of the SET clause. */
  datatype Assignment =
    | SetPropertySize(size: int)
    | SetStatus(status: int)
    | SetMoveDate(date: Time)
    | SetName(name: string)
    | SetEmail(email: string)
    | SetPhone(phone: string)
    | SetMoveFrom(moveFrom: string)
    | SetMoveTo(moveTo: string)
    | SetAdditionalInfo(info: string)

  /** The text before the placeholder number in the assignment's clause. */
  function ClauseHead(a: Assignment): string {
    match a
    case SetPropertySize(_) => "property_size = $"
    case SetStatus(_) => "status = $"
    case SetMoveDate(_) => "move_date = $"
    case SetName(_) => "name = $"
    case SetEmail(_) => "email = $"
    case SetPhone(_) => "phone = $"
    case SetMoveFrom(_) => "move_from = $"
    case SetMoveTo(_) => "move_to = $"
    case SetAdditionalInfo(_) => "additional_info = $"
  }

  function ArgOf(a: Assignment): Arg {
    match a
    case SetPropertySize(p) => SizeArg(p)
    case SetStatus(s) => StatusArg(s)
    case SetMoveDate(t) => TimeArg(t)
    case SetName(v) => TextArg(v)
    case SetEmail(v) => TextArg(v)
    case SetPhone(v) => TextArg(v)
    case SetMoveFrom(v) => TextArg(v)
    case SetMoveTo(v) => TextArg(v)
    case SetAdditionalInfo(v) => TextArg(v)
  }

  /** The assignment for the k-th optional field of the request, in the
      statement's fixed column order, when that field is present. */
  function Part(req: UpdateOrderRequest, k: nat): (p: seq<Assignment>)
    requires k < 9
    ensures |p| <= 1
  {
    match k
    case 0 => if req.propertySize.Some? then [SetPropertySize(req.propertySize.value)] else []
    case 1 => if req.orderStatus.Some? then [SetStatus(req.orderStatus.value)] else []
    case 2 => if req.moveDate.Some? then [SetMoveDate(req.moveDate.value)] else []
    case 3 => if req.name.Some? then [SetName(req.name.value)] else []
    case 4 => if req.email.Some? then [SetEmail(req.email.value)] else []
    case 5 => if req.phone.Some? then [SetPhone(req.phone.value)] else []
    case 6 => if req.moveFrom.Some? then [SetMoveFrom(req.moveFrom.value)] else []
    case 7 => if req.moveTo.Some? then [SetMoveTo(req.moveTo.value)] else []
    case _ => if req.additionalInfo.Some? then [SetAdditionalInfo(req.additionalInfo.value)] else []
  }

  /** The assignments of the first k optional fields. */
  function Prefix(req: UpdateOrderRequest, k: nat): (p: seq<Assignment>)
    requires k <= 9
    ensures |p| <= k
    ensures |p| == 0 <==> forall j :: 0 <= j < k ==> |Part(req, j)| == 0
  {
    if k == 0 then [] else Prefix(req, k - 1) + Part(req, k - 1)
  }

  /** The request with every optional field absent. */
  predicate Empty(req: UpdateOrderRequest) {
    req == UpdateOrderRequest(req.id, None, None, None, None, None, None, None, None, None)
  }

  /** The assignments for the fields present in the request, in column
      order; a present empty text is still an assignment. */
  function Assignments(req: UpdateOrderRequest): (asg: seq<Assignment>)
    ensures |asg| == 0 <==> Empty(req)
    ensures |asg| <= 9
  {
    var asg := Prefix(req, 9);
    assert |asg| == 0 <==> forall j :: 0 <= j < 9 ==> |Part(req, j)| == 0;
    assert Empty(req) <==>
      |Part(req, 0)| == 0 && |Part(req, 1)| == 0 && |Part(req, 2)| == 0
      && |Part(req, 3)| == 0 && |Part(req, 4)| == 0 && |Part(req, 5)| == 0 && |Part(req, 6)| == 0
      && |Part(req, 7)| == 0 && |Part(req, 8)| == 0;
    asg
  }

  lemma {:induction false} PartInPrefix(req: UpdateOrderRequest, k: nat, m: nat)
    requires k < m <= 9
    ensures forall a :: a in Part(req, k) ==> a in Prefix(req, m)
    decreases m
  {
    if k < m - 1 {
      PartInPrefix(req, k, m - 1);
    }
  }

  /** Every present field has its assignment in the statement. */
  lemma PartInAssignments(req: UpdateOrderRequest, k: nat)
    requires k < 9
    ensures forall a :: a in Part(req, k) ==> a in Assignments(req)
  {
    PartInPrefix(req, k, 9);
  }

  /** fmt.Sprintf("<column> = $%d", pos) */
  function SetClause(a: Assignment, pos: nat): string {
    ClauseHead(a) + Decimal(pos)
  }

  /** Clause k names placeholder k + 1. */
  function SetClauses(asg: seq<Assignment>): (cs: seq<string>)
    ensures |cs| == |asg|
    ensures forall k :: 0 <= k < |asg| ==> cs[k] == SetClause(asg[k], k + 1)
  {
    if |asg| == 0 then []
    else SetClauses(asg[..|asg| - 1]) + [SetClause(asg[|asg| - 1], |asg|)]
  }

  /** Argument k is the value for placeholder k + 1. */
  function Values(asg: seq<Assignment>): (vs: seq<Arg>)
    ensures |vs| == |asg|
    ensures forall k :: 0 <= k < |asg| ==> vs[k] == ArgOf(asg[k])
  {
    if |asg| == 0 then [] else Values(asg[..|asg| - 1]) + [ArgOf(asg[|asg| - 1])]
  }

  /** The statement text around the clauses; the id is placeholder idPos. */
  function UpdateQuery(clauses: seq<string>, idPos: nat): string {
    "\nupdate moving.orders\nset " + Join(clauses + ["updated_at = now()"], ", ")
    + "\nwhere id = $" + Decimal(idPos) + "\n"
  }

  datatype Statement = Statement(query: string, args: seq<Arg>)

  /** The builder's state: clauses and arguments so far, next placeholder. */
  datatype Builder = Builder(clauses: seq<string>, args: seq<Arg>, argPos: nat)

  /** One `if req.X != nil` block: a present field adds its clause, numbered
      with the next placeholder, and its argument. */
  function Step(b: Builder, part: seq<Assignment>): Builder {
    if |part| == 1 then Builder(b.clauses + [SetClause(part[0], b.argPos)], b.args + [ArgOf(part[0])], b.argPos + 1)
    else b
  }

  /** The builder's state after the first k blocks. */
  function After(req: UpdateOrderRequest, k: nat): Builder
    requires k <= 9
  {
    if k == 0 then Builder([], [], 1) else Step(After(req, k - 1), Part(req, k - 1))
  }

  /** After k blocks there is one clause and one argument per present field
      among the first k, clause j naming placeholder j + 1. */
  lemma {:induction false} AfterBuilds(req: UpdateOrderRequest, k: nat)
    requires k <= 9
    ensures After(req, k) == Builder(SetClauses(Prefix(req, k)), Values(Prefix(req, k)), |Prefix(req, k)| + 1)
  {
    if k > 0 {
      AfterBuilds(req, k - 1);
      StepExtends(Prefix(req, k - 1), Part(req, k - 1));
    }
  }

  /** One block extends the clauses and arguments built so far by the
      field's assignment, if any. */
  lemma StepExtends(done: seq<Assignment>, part: seq<Assignment>)
    requires |part| <= 1
    ensures Step(Builder(SetClauses(done), Values(done), |done| + 1), part)
      == Builder(SetClauses(done + part), Values(done + part), |done + part| + 1)
  {
    if |part| == 1 {
      assert (done + part)[..|done|] == done;
    } else {
      assert done + part == done;
    }
  }

  /** After all nine blocks: the clauses and arguments of the present
      fields, and none exactly when no field is present. */
  lemma BuiltAll(req: UpdateOrderRequest, b: Builder)
    requires b == After(req, 9)
    ensures b.clauses == SetClauses(Assignments(req)) && b.args == Values(Assignments(req))
    ensures b.argPos == |Assignments(req)| + 1
    ensures |b.clauses| == 0 <==> Empty(req)
  {
    AfterBuilds(req, 9);
  }

  /** One `if req.X != nil` block of the builder: when the field is
      present (`part` holds its assignment), append its clause, numbered
      with the next placeholder, and its argument, and advance the
      placeholder counter. */
  method AppendIfPresent(b: Builder, part: seq<Assignment>) returns (r: Builder)
    requires |part| <= 1
    ensures r == Step(b, part)
  {
    r := b;
    if |part| == 1 {
      var setClauses := r.clauses + [ClauseHead(part[0]) + Decimal(r.argPos)];
      var args := r.args + [ArgOf(part[0])];
      var argPos := r.argPos + 1;
      r := Builder(setClauses, args, argPos);
    }
  }

  /** The statement of UpdateOrder: one numbered placeholder per present
      field, updated_at refreshed, the id last; an ID of 0 or a request
      with no field present is refused. */
  method BuildUpdate(req: UpdateOrderRequest) returns (r: Result<Statement>)
    ensures req.id == 0 ==> r == Err(Plain("invalid id"))
    ensures req.id != 0 && Empty(req) ==> r == Err(Plain("no set clauses found"))
    ensures req.id != 0 && !Empty(req) ==>
      r == Ok(Statement(UpdateQuery(SetClauses(Assignments(req)), |Assignments(req)| + 1),
                        Values(Assignments(req)) + [IdArg(req.id)]))
  {
    if req.id == 0 {
      return Err(Plain("invalid id"));
    }
    var b := Builder([], [], 1);
    b := AppendIfPresent(b, Part(req, 0));
    assert b == After(req, 1);
    b := AppendIfPresent(b, Part(req, 1));
    assert b == After(req, 2);
    b := AppendIfPresent(b, Part(req, 2));
    assert b == After(req, 3);
    b := AppendIfPresent(b, Part(req, 3));
    assert b == After(req, 4);
    b := AppendIfPresent(b, Part(req, 4));
    assert b == After(req, 5);
    b := AppendIfPresent(b, Part(req, 5));
    assert b == After(req, 6);
    b := AppendIfPresent(b, Part(req, 6));
    assert b == After(req, 7);
    b := AppendIfPresent(b, Part(req, 7));
    assert b == After(req, 8);
    b := AppendIfPresent(b, Part(req, 8));
    assert b == After(req, 9);
    BuiltAll(req, b);
    var setClauses, args, argPos := b.clauses, b.args, b.argPos;

    if |setClauses| == 0 {
      return Err(Plain("no set clauses found"));
    }
    setClauses := setClauses + ["updated_at = now()"];
    var query := "\nupdate moving.orders\nset " + Join(setClauses, ", ") + "\nwhere id = $" + Decimal(argPos) + "\n";
    args := args + [IdArg(req.id)];
    return Ok(Statement(query, args));
  }

  /** UpdateOrder: the built statement goes to `exec`, the store. */
  method UpdateOrder(exec: Statement -> Option<Error>, req: UpdateOrderRequest) returns (err: Option<Error>)
    ensures req.id == 0 ==> err == Some(Plain("invalid id"))
    ensures req.id != 0 && Empty(req) ==> err == Some(Plain("no set clauses found"))
    ensures req.id != 0 && !Empty(req) ==>
      var st := Statement(UpdateQuery(SetClauses(Assignments(req)), |Assignments(req)| + 1),
                          Values(Assignments(req)) + [IdArg(req.id)]);
      err == if exec(st).Some? then Some(Wrapped("failed update row | ", exec(st).value)) else None
  {
    var st := BuildUpdate(req);
    match st
    case Err(e) => return Some(e);
    case Ok(s) =>
      match exec(s)
      case Some(e) => return Some(Wrapped("failed update row | ", e));
      case None => return None;
  }

  /** The effect of one assignment on the matched row, with codes stored by
      name as the orders adapter's reads expect. */
  function Assign(row: Row, a: Assignment): Row {
    match a
    case SetPropertySize(p) => row.(propertySize := PropertySizes.ToString(p))
    case SetStatus(s) => row.(status := OrderStatuses.ToString(s))
    case SetMoveDate(t) => row.(moveDate := t)
    case SetName(v) => row.(name := v)
    case SetEmail(v) => row.(email := v)
    case SetPhone(v) => row.(phone := v)
    case SetMoveFrom(v) => row.(moveFrom := v)
    case SetMoveTo(v) => row.(moveTo := v)
    case SetAdditionalInfo(v) => row.(additionalInfo := Some(v))
  }

  /** The SET clause applied left to right, then updated_at = now(). */
  function AssignAll(row: Row, asg: seq<Assignment>): Row
    decreases |asg|
  {
    if |asg| == 0 then row else Assign(AssignAll(row, asg[..|asg| - 1]), asg[|asg| - 1])
  }

  lemma {:induction false} AssignAllAppend(row: Row, a: seq<Assignment>, b: seq<Assignment>)
    ensures AssignAll(row, a + b) == AssignAll(AssignAll(row, a), b)
    decreases |b|
  {
    if |b| == 0 {
      assert a + b == a;
    } else {
      assert (a + b)[..|a + b| - 1] == a + b[..|b| - 1];
      AssignAllAppend(row, a, b[..|b| - 1]);
    }
  }

  /** The effect of the k-th optional field on the matched row. */
  function PatchField(row: Row, req: UpdateOrderRequest, k: nat): Row
    requires k < 9
  {
    if |Part(req, k)| == 1 then Assign(row, Part(req, k)[0]) else row
  }

  /** The row after the first k optional fields were assigned. */
  function PatchRow(row: Row, req: UpdateOrderRequest, k: nat): Row
    requires k <= 9
  {
    if k == 0 then row else PatchField(PatchRow(row, req, k - 1), req, k - 1)
  }

  lemma {:induction false} AssignPrefix(row: Row, req: UpdateOrderRequest, k: nat)
    requires k <= 9
    ensures AssignAll(row, Prefix(req, k)) == PatchRow(row, req, k)
  {
    if k > 0 {
      AssignPrefix(row, req, k - 1);
      AssignAllAppend(row, Prefix(req, k - 1), Part(req, k - 1));
      if |Part(req, k - 1)| == 1 {
        AssignSingle(PatchRow(row, req, k - 1), Part(req, k - 1)[0]);
      } else {
        assert Part(req, k - 1) == [];
      }
    }
  }

  lemma AssignSingle(row: Row, a: Assignment)
    ensures AssignAll(row, [a]) == Assign(row, a)
  {
    assert [a][..0] == [];
  }

  /** The overwrite patch: every present field replaces the stored value,
      empty texts included (the orders adapter keeps the stored value for
      an empty text instead). */
  function Overwritten(o: Order, req: UpdateOrderRequest, now: Time): Order {
    o.(propertySize := if req.propertySize.Some? then PropertySizes.Canonical(req.propertySize.value) else o.propertySize,
       orderStatus := if req.orderStatus.Some? then OrderStatuses.Canonical(req.orderStatus.value) else o.orderStatus,
       moveDate := req.moveDate.GetOr(o.moveDate),
       name := req.name.GetOr(o.name),
       email := req.email.GetOr(o.email),
       phone := req.phone.GetOr(o.phone),
       moveFrom := req.moveFrom.GetOr(o.moveFrom),
       moveTo := req.moveTo.GetOr(o.moveTo),
       additionalInfo := if req.additionalInfo.Some? then req.additionalInfo else o.additionalInfo,
       updatedAt := now)
  }

  /** The row with every present field written, codes by name. */
  function OverwrittenRow(row: Row, req: UpdateOrderRequest): Row {
    row.(propertySize := if req.propertySize.Some? then PropertySizes.ToString(req.propertySize.value) else row.propertySize,
         status := if req.orderStatus.Some? then OrderStatuses.ToString(req.orderStatus.value) else row.status,
         moveDate := req.moveDate.GetOr(row.moveDate),
         name := req.name.GetOr(row.name),
         email := req.email.GetOr(row.email),
         phone := req.phone.GetOr(row.phone),
         moveFrom := req.moveFrom.GetOr(row.moveFrom),
         moveTo := req.moveTo.GetOr(row.moveTo),
         additionalInfo := if req.additionalInfo.Some? then req.additionalInfo else row.additionalInfo)
  }

  /** The row once the first k optional fields were written. */
  function OverwrittenUpTo(row: Row, req: UpdateOrderRequest, k: nat): Row {
    row.(propertySize := if k > 0 && req.propertySize.Some? then PropertySizes.ToString(req.propertySize.value) else row.propertySize,
         status := if k > 1 && req.orderStatus.Some? then OrderStatuses.ToString(req.orderStatus.value) else row.status,
         moveDate := if k > 2 then req.moveDate.GetOr(row.moveDate) else row.moveDate,
         name := if k > 3 then req.name.GetOr(row.name) else row.name,
         email := if k > 4 then req.email.GetOr(row.email) else row.email,
         phone := if k > 5 then req.phone.GetOr(row.phone) else row.phone,
         moveFrom := if k > 6 then req.moveFrom.GetOr(row.moveFrom) else row.moveFrom,
         moveTo := if k > 7 then req.moveTo.GetOr(row.moveTo) else row.moveTo,
         additionalInfo := if k > 8 && req.additionalInfo.Some? then req.additionalInfo else row.additionalInfo)
  }

  lemma {:induction false} PatchRowUpTo(row: Row, req: UpdateOrderRequest, k: nat)
    requires k <= 9
    ensures PatchRow(row, req, k) == OverwrittenUpTo(row, req, k)
  {
    if k > 0 {
      PatchRowUpTo(row, req, k - 1);
    }
  }

  /** The built SET clause writes exactly the present fields. */
  lemma AssignmentsOverwrite(row: Row, req: UpdateOrderRequest)
    ensures AssignAll(row, Assignments(req)) == OverwrittenRow(row, req)
  {
    AssignPrefix(row, req, 9);
    PatchRowUpTo(row, req, 9);
  }

  /** Reading back the row the built statement updated gives the present
      fields overwritten and updated_at refreshed. */
  lemma UpdateOverwrites(o: Order, req: UpdateOrderRequest, now: Time)
    requires CanonicalCodes(o)
    ensures Decode(AssignAll(RowOf(o), Assignments(req)).(updatedAt := now)) == Overwritten(o, req, now)
  {
    AssignmentsOverwrite(RowOf(o), req);
    DecodeRoundTrip(RowOf(o), o);
    if req.propertySize.Some? { PropertySizes.DecodeEncode(req.propertySize.value); }
    if req.orderStatus.Some? { OrderStatuses.DecodeEncode(req.orderStatus.value); }
  }
}
