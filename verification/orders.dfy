/**
 * The orders controller: its validators, the four exported chains
 * (create, update, delete, read), the list handler and the in-memory
 * collection of orders the terminal handlers change.
 */
module Orders {
  import opened Json
  import opened Pipeline

  /**
   * A stored order. `modbileNumber` is the misspelt property `create`
   * stores; an order only gets a `mobileNumber` from a seed or an update.
   * An absent property is `Undefined`.
   */
  datatype Order = Order(
    id: string,
    deliverTo: Value,
    mobileNumber: Value,
    modbileNumber: Value,
    status: Value,
    dishes: Value)

  /** The id property, which the locator and `findIndex` compare with the route id. */
  function IdOf(o: Order): string {
    o.id
  }

  // ---------------------------------------------------------------------
  // Validators

  /** `dishesValidator(field)`: the field must be an array with at least one entry. */
  function DishesValidator(data: Payload, field: string): (r: Outcome)
    ensures r == Continue <==> Get(data, field).Arr? && |Get(data, field).items| >= 1
    ensures r != Continue ==> r == Halt(BadRequest, NoDishes)
  {
    var v := Get(data, field);
    if !v.Arr? || |v.items| <= 0 then Halt(BadRequest, NoDishes) else Continue
  }

  /** `!quantity || quantity <= 0 || !Number.isInteger(quantity)` */
  function QuantityRejected(quantity: Value): (r: bool)
    ensures r <==> !IsPositiveInteger(quantity)
  {
    !Truthy(quantity) || AtMostZero(quantity) || !IsInteger(quantity)
  }

  /** A dish entry the quantity validator lets through. */
  predicate EntryOk(item: Value) {
    !Nullish(item) && IsPositiveInteger(Member(item, "quantity"))
  }

  /** The first entry the quantity validator stops at. */
  function FirstBadEntry(items: seq<Value>): (r: Option<nat>)
    ensures r.None? <==> forall i :: 0 <= i < |items| ==> EntryOk(items[i])
    ensures r.Some? ==> r.value < |items| && !EntryOk(items[r.value])
    ensures r.Some? ==> forall j :: 0 <= j < r.value ==> EntryOk(items[j])
  {
    if items == [] then None
    else if !EntryOk(items[0]) then Some(0)
    else
      match FirstBadEntry(items[1..])
      case None => None
      case Some(k) => Some(k + 1)
  }

  /**
   * What `quantityValidator` signals for `data[field]`: reading the
   * quantity of a null entry throws; otherwise the first entry without a
   * positive integer quantity is reported by its index.
   */
  function QuantityOutcome(dishes: Value): (r: Outcome)
    ensures Nullish(dishes) ==> r == Halt(Uncaught, TypeError)
    ensures dishes.Arr? ==>
              (r == Continue <==> forall i :: 0 <= i < |dishes.items| ==> EntryOk(dishes.items[i]))
    ensures dishes.Arr? ==>
              forall i :: 0 <= i < |dishes.items| && !EntryOk(dishes.items[i]) &&
                          (forall j :: 0 <= j < i ==> EntryOk(dishes.items[j])) ==>
                r == if Nullish(dishes.items[i]) then Halt(Uncaught, TypeError)
                     else Halt(BadRequest, BadQuantity(i))
  {
    match dishes
    case Undefined => Halt(Uncaught, TypeError)
    case Null => Halt(Uncaught, TypeError)
    case Arr(items) =>
      (match FirstBadEntry(items)
       case None => Continue
       case Some(i) =>
         if Nullish(items[i]) then Halt(Uncaught, TypeError) else Halt(BadRequest, BadQuantity(i)))
    case _ => Continue
  }

  /** `quantityValidator(field)`: walks the entries and stops at the first bad one. */
  method QuantityValidator(data: Payload, field: string) returns (r: Outcome)
    ensures r == QuantityOutcome(Get(data, field))
  {
    var dishes := Get(data, field);
    if Nullish(dishes) {
      return Halt(Uncaught, TypeError);
    }
    if !dishes.Arr? {
      return Continue;
    }
    var items := dishes.items;
    var i := 0;
    while i < |items|
      invariant 0 <= i <= |items|
      invariant forall j :: 0 <= j < i ==> EntryOk(items[j])
    {
      var item := items[i];
      if Nullish(item) {
        return Halt(Uncaught, TypeError);
      }
      if QuantityRejected(Member(item, "quantity")) {
        return Halt(BadRequest, BadQuantity(i));
      }
      i := i + 1;
    }
    return Continue;
  }

  /** The statuses an update may set. */
  const AcceptableStatuses: seq<string> := ["pending", "preparing", "out-for-delivery"]

  /** `data[field].length <= 0`, where a length exists. */
  predicate EmptyLength(v: Value) {
    match v
    case Str(s) => |s| == 0
    case Arr(items) => |items| == 0
    case _ => false
  }

  /** `statusValidator(field)`: the payload's status, not the stored one, is checked. */
  function StatusValidator(data: Payload, field: string): (r: Outcome)
    ensures Get(data, field) == Str("delivered") ==> r == Halt(NotFoundStatus, DeliveredOrder)
    ensures r == Continue <==>
              Get(data, field) in {Str("pending"), Str("preparing"), Str("out-for-delivery")}
    ensures r != Continue && Get(data, field) != Str("delivered") ==> r == Halt(BadRequest, BadStatus)
  {
    var v := Get(data, field);
    if v == Str("delivered") then Halt(NotFoundStatus, DeliveredOrder)
    else if !Truthy(v) || EmptyLength(v) || !(v.Str? && v.s in AcceptableStatuses) then
      Halt(BadRequest, BadStatus)
    else Continue
  }

  /** `deletionStatus`: the located order's stored status must be exactly "pending". */
  function DeletionStatus(order: Order): (r: Outcome)
    ensures r == Continue <==> order.status == Str("pending")
    ensures r != Continue ==> r == Halt(BadRequest, NotPending)
  {
    if order.status != Str("pending") then Halt(BadRequest, NotPending) else Continue
  }

  // ---------------------------------------------------------------------
  // Chains

  datatype Stage =
    | CheckProperty(field: string)
    | CheckDishes(field: string)
    | CheckQuantities(field: string)
    | CheckStatus(field: string)
    | CheckExists
    | CheckDeletable

  /** One stage, on the collection as it is, the route id and the body's `data`. */
  function Eval(stage: Stage, orders: seq<Order>, routeId: string, data: Payload): Outcome {
    match stage
    case CheckProperty(f) => HasProperty(data, f)
    case CheckDishes(f) => DishesValidator(data, f)
    case CheckQuantities(f) => QuantityOutcome(Get(data, f))
    case CheckStatus(f) => StatusValidator(data, f)
    case CheckExists => Locate(Ids(orders, IdOf), routeId, Get(data, "id"))
    case CheckDeletable =>
      // `res.locals.order.status` throws when no order was attached
      match Located(orders, IdOf, routeId)
      case None => Halt(Uncaught, TypeError)
      case Some(order) => DeletionStatus(order)
  }

  /** The stages of one request, all seeing the same collection, route id and payload. */
  function Stages(orders: seq<Order>, routeId: string, data: Payload): Stage -> Outcome {
    s => Eval(s, orders, routeId, data)
  }

  const CreateChain: seq<Stage> := [
    CheckProperty("deliverTo"), CheckProperty("mobileNumber"), CheckProperty("dishes"),
    CheckDishes("dishes"), CheckQuantities("dishes")]

  /** The body checks of the update chain, which all run before the locator. */
  const UpdateBody: seq<Stage> := [
    CheckProperty("deliverTo"), CheckProperty("mobileNumber"), CheckProperty("status"),
    CheckProperty("dishes"), CheckDishes("dishes"), CheckQuantities("dishes"),
    CheckStatus("status")]

  const UpdateChain: seq<Stage> := UpdateBody + [CheckExists]

  const DeleteChain: seq<Stage> := [CheckExists, CheckDeletable]

  const ReadChain: seq<Stage> := [CheckExists]

  /** POST /orders has no route id; no stage of its chain reads one. */
  function CreateOutcome(orders: seq<Order>, data: Payload): Outcome {
    Run(CreateChain, Stages(orders, "", data))
  }

  function UpdateBodyOutcome(orders: seq<Order>, routeId: string, data: Payload): Outcome {
    Run(UpdateBody, Stages(orders, routeId, data))
  }

  function UpdateOutcome(orders: seq<Order>, routeId: string, data: Payload): Outcome {
    Run(UpdateChain, Stages(orders, routeId, data))
  }

  function DeleteOutcome(orders: seq<Order>, routeId: string, data: Payload): Outcome {
    Run(DeleteChain, Stages(orders, routeId, data))
  }

  function ReadOutcome(orders: seq<Order>, routeId: string, data: Payload): Outcome {
    Run(ReadChain, Stages(orders, routeId, data))
  }

  /** The `dishes` payload the create and update chains accept. */
  predicate DishesOk(dishes: Value) {
    dishes.Arr? && |dishes.items| >= 1 &&
    forall i :: 0 <= i < |dishes.items| ==> EntryOk(dishes.items[i])
  }

  /** The create chain lets exactly the payloads with the three required fields through. */
  lemma CreateAccepts(orders: seq<Order>, data: Payload)
    ensures CreateOutcome(orders, data) == Continue <==>
              Truthy(Get(data, "deliverTo")) && Truthy(Get(data, "mobileNumber")) &&
              DishesOk(Get(data, "dishes"))
  {
    var eval := Stages(orders, "", data);
    assert eval(CreateChain[0]) == HasProperty(data, "deliverTo");
    assert eval(CreateChain[1]) == HasProperty(data, "mobileNumber");
    assert eval(CreateChain[2]) == HasProperty(data, "dishes");
    assert eval(CreateChain[3]) == DishesValidator(data, "dishes");
    assert eval(CreateChain[4]) == QuantityOutcome(Get(data, "dishes"));
  }

  /** The first of the three required fields the create chain finds missing. */
  function FirstMissing(data: Payload): string {
    if !Truthy(Get(data, "deliverTo")) then "deliverTo"
    else if !Truthy(Get(data, "mobileNumber")) then "mobileNumber"
    else "dishes"
  }

  /** A payload missing a required field is refused with 400 naming the first missing one. */
  lemma CreateRejectsMissingField(orders: seq<Order>, data: Payload)
    requires !Truthy(Get(data, "deliverTo")) || !Truthy(Get(data, "mobileNumber")) ||
             !Truthy(Get(data, "dishes"))
    ensures CreateOutcome(orders, data) == Halt(BadRequest, MissingField(FirstMissing(data)))
  {
    var eval := Stages(orders, "", data);
    if !Truthy(Get(data, "deliverTo")) {
      FirstHaltDecides(CreateChain, eval, 0);
    } else if !Truthy(Get(data, "mobileNumber")) {
      assert eval(CreateChain[0]) == Continue;
      FirstHaltDecides(CreateChain, eval, 1);
    } else {
      assert eval(CreateChain[0]) == Continue && eval(CreateChain[1]) == Continue;
      FirstHaltDecides(CreateChain, eval, 2);
    }
  }

  /** The create chain reports the first dish entry with a bad quantity by its index. */
  lemma CreateReportsFirstBadQuantity(orders: seq<Order>, data: Payload, i: nat)
    requires Truthy(Get(data, "deliverTo")) && Truthy(Get(data, "mobileNumber"))
    requires Get(data, "dishes").Arr? && i < |Get(data, "dishes").items|
    requires forall j :: 0 <= j < i ==> EntryOk(Get(data, "dishes").items[j])
    requires !EntryOk(Get(data, "dishes").items[i])
    requires !Nullish(Get(data, "dishes").items[i])
    ensures CreateOutcome(orders, data) == Halt(BadRequest, BadQuantity(i))
  {
    var eval := Stages(orders, "", data);
    var dishes := Get(data, "dishes");
    assert eval(CreateChain[0]) == Continue;
    assert eval(CreateChain[1]) == Continue;
    assert eval(CreateChain[2]) == Continue;
    assert dishes.items[0] in dishes.items;
    assert eval(CreateChain[3]) == Continue;
    assert eval(CreateChain[4]) == QuantityOutcome(dishes) == Halt(BadRequest, BadQuantity(i));
    FirstHaltDecides(CreateChain, eval, 4);
  }

  /** The create chain never looks at the payload's status. */
  lemma CreateIgnoresStatus(orders: seq<Order>, data: Payload, status: Value)
    ensures CreateOutcome(orders, data["status" := status]) == CreateOutcome(orders, data)
  {
    var other := data["status" := status];
    var eval1 := Stages(orders, "", other);
    var eval2 := Stages(orders, "", data);
    assert Get(other, "deliverTo") == Get(data, "deliverTo");
    assert Get(other, "mobileNumber") == Get(data, "mobileNumber");
    assert Get(other, "dishes") == Get(data, "dishes");
    RunAgrees(CreateChain, eval1, eval2);
  }

  /** The update chain runs every body check before it looks the order up. */
  lemma UpdateChecksBodyFirst(orders: seq<Order>, routeId: string, data: Payload)
    ensures UpdateOutcome(orders, routeId, data) ==
              if UpdateBodyOutcome(orders, routeId, data).Halt?
              then UpdateBodyOutcome(orders, routeId, data)
              else Locate(Ids(orders, IdOf), routeId, Get(data, "id"))
  {
    var eval := Stages(orders, routeId, data);
    RunSnoc(UpdateBody, CheckExists, eval);
  }

  /** The body checks of the update chain accept exactly these payloads. */
  lemma UpdateBodyAccepts(orders: seq<Order>, routeId: string, data: Payload)
    ensures UpdateBodyOutcome(orders, routeId, data) == Continue <==>
              Truthy(Get(data, "deliverTo")) && Truthy(Get(data, "mobileNumber")) &&
              DishesOk(Get(data, "dishes")) &&
              Get(data, "status") in {Str("pending"), Str("preparing"), Str("out-for-delivery")}
  {
    var eval := Stages(orders, routeId, data);
    assert eval(UpdateBody[0]) == HasProperty(data, "deliverTo");
    assert eval(UpdateBody[1]) == HasProperty(data, "mobileNumber");
    assert eval(UpdateBody[2]) == HasProperty(data, "status");
    assert eval(UpdateBody[3]) == HasProperty(data, "dishes");
    assert eval(UpdateBody[4]) == DishesValidator(data, "dishes");
    assert eval(UpdateBody[5]) == QuantityOutcome(Get(data, "dishes"));
    assert eval(UpdateBody[6]) == StatusValidator(data, "status");
  }

  /** A bad body on an id that does not exist is reported as the bad body, never as not found. */
  lemma UpdateBadBodyBeforeNotFound(orders: seq<Order>, routeId: string, data: Payload)
    requires UpdateBodyOutcome(orders, routeId, data).Halt?
    ensures UpdateOutcome(orders, routeId, data) == UpdateBodyOutcome(orders, routeId, data)
    ensures !UpdateOutcome(orders, routeId, data).error.NotFound?
  {
    BodyNeverNotFound(orders, routeId, data);
    UpdateChecksBodyFirst(orders, routeId, data);
  }

  lemma BodyNeverNotFound(orders: seq<Order>, routeId: string, data: Payload)
    ensures UpdateBodyOutcome(orders, routeId, data).Halt? ==>
              !UpdateBodyOutcome(orders, routeId, data).error.NotFound?
  {
    var eval := Stages(orders, routeId, data);
    if UpdateBodyOutcome(orders, routeId, data).Halt? {
      var k :| 0 <= k < |UpdateBody| && eval(UpdateBody[k]) == UpdateBodyOutcome(orders, routeId, data);
      assert CheckExists !in UpdateBody;
      assert UpdateBody[k] in UpdateBody;
      NotFoundOnlyFromLocator(UpdateBody[k], orders, routeId, data);
    }
  }

  /** Only the locator reports a missing id. */
  lemma NotFoundOnlyFromLocator(stage: Stage, orders: seq<Order>, routeId: string, data: Payload)
    ensures stage != CheckExists && Eval(stage, orders, routeId, data).Halt? ==>
              !Eval(stage, orders, routeId, data).error.NotFound?
  {
  }

  /** An update asking for status "delivered" never changes the order. */
  lemma UpdateRefusesDelivered(orders: seq<Order>, routeId: string, data: Payload)
    requires Get(data, "status") == Str("delivered")
    ensures UpdateOutcome(orders, routeId, data) != Continue
  {
    UpdateChecksBodyFirst(orders, routeId, data);
    UpdateBodyAccepts(orders, routeId, data);
    assert Get(data, "status") !in {Str("pending"), Str("preparing"), Str("out-for-delivery")};
  }

  /** Once the other body fields pass, status "delivered" is answered with 404. */
  lemma UpdateReportsDelivered(orders: seq<Order>, routeId: string, data: Payload)
    requires Get(data, "status") == Str("delivered")
    requires Truthy(Get(data, "deliverTo")) && Truthy(Get(data, "mobileNumber"))
    requires DishesOk(Get(data, "dishes"))
    ensures UpdateOutcome(orders, routeId, data) == Halt(NotFoundStatus, DeliveredOrder)
  {
    BodyReportsDelivered(orders, routeId, data);
    UpdateChecksBodyFirst(orders, routeId, data);
  }

  lemma BodyReportsDelivered(orders: seq<Order>, routeId: string, data: Payload)
    requires Get(data, "status") == Str("delivered")
    requires Truthy(Get(data, "deliverTo")) && Truthy(Get(data, "mobileNumber"))
    requires DishesOk(Get(data, "dishes"))
    ensures UpdateBodyOutcome(orders, routeId, data) == Halt(NotFoundStatus, DeliveredOrder)
  {
    var eval := Stages(orders, routeId, data);
    assert eval(UpdateBody[0]) == Continue;
    assert eval(UpdateBody[1]) == Continue;
    assert eval(UpdateBody[2]) == Continue;
    assert eval(UpdateBody[3]) == Continue;
    assert eval(UpdateBody[4]) == Continue;
    assert eval(UpdateBody[5]) == Continue;
    assert eval(UpdateBody[6]) == Halt(NotFoundStatus, DeliveredOrder);
    FirstHaltDecides(UpdateBody, eval, 6);
  }

  /** The update chain never reads an order's stored status, only the payload's. */
  lemma UpdateIgnoresStoredStatus(orders: seq<Order>, i: nat, s: Value, routeId: string, data: Payload)
    requires i < |orders|
    ensures UpdateOutcome(orders[i := orders[i].(status := s)], routeId, data) ==
            UpdateOutcome(orders, routeId, data)
  {
    var changed := orders[i := orders[i].(status := s)];
    assert Ids(changed, IdOf) == Ids(orders, IdOf);
    RunAgrees(UpdateChain, Stages(changed, routeId, data), Stages(orders, routeId, data));
  }

  /**
   * A stored order whose status is already "delivered" is still updated
   * when the payload passes the body checks and the ids agree.
   */
  lemma UpdateAcceptsDeliveredOrder(orders: seq<Order>, routeId: string, data: Payload)
    requires Located(orders, IdOf, routeId).Some?
    requires Located(orders, IdOf, routeId).value.status == Str("delivered")
    requires Truthy(Get(data, "deliverTo")) && Truthy(Get(data, "mobileNumber"))
    requires DishesOk(Get(data, "dishes")) && Get(data, "status") == Str("pending")
    requires !BodyIdMismatch(Get(data, "id"), routeId)
    ensures UpdateOutcome(orders, routeId, data) == Continue
  {
    UpdateBodyAccepts(orders, routeId, data);
    UpdateChecksBodyFirst(orders, routeId, data);
  }

  /** The delete chain goes through exactly for a located, matching, pending order. */
  lemma DeleteAccepts(orders: seq<Order>, routeId: string, data: Payload)
    ensures DeleteOutcome(orders, routeId, data) == Continue <==>
              Located(orders, IdOf, routeId).Some? && !BodyIdMismatch(Get(data, "id"), routeId) &&
              Located(orders, IdOf, routeId).value.status == Str("pending")
    ensures Located(orders, IdOf, routeId).Some? && !BodyIdMismatch(Get(data, "id"), routeId) &&
            Located(orders, IdOf, routeId).value.status != Str("pending") ==>
              DeleteOutcome(orders, routeId, data) == Halt(BadRequest, NotPending)
  {
    var eval := Stages(orders, routeId, data);
    assert eval(DeleteChain[0]) == Locate(Ids(orders, IdOf), routeId, Get(data, "id"));
    assert eval(DeleteChain[1]) == Eval(CheckDeletable, orders, routeId, data);
    if Located(orders, IdOf, routeId).Some? && !BodyIdMismatch(Get(data, "id"), routeId) &&
       Located(orders, IdOf, routeId).value.status != Str("pending") {
      FirstHaltDecides(DeleteChain, eval, 1);
    }
  }

  /** The read chain is the locator alone. */
  lemma ReadLocates(orders: seq<Order>, routeId: string, data: Payload)
    ensures ReadOutcome(orders, routeId, data) == Continue <==>
              routeId in Ids(orders, IdOf) && !BodyIdMismatch(Get(data, "id"), routeId)
    ensures routeId !in Ids(orders, IdOf) ==>
              ReadOutcome(orders, routeId, data) == Halt(NotFoundStatus, NotFound(routeId))
  {
    var eval := Stages(orders, routeId, data);
    assert eval(ReadChain[0]) == Locate(Ids(orders, IdOf), routeId, Get(data, "id"));
    if routeId !in Ids(orders, IdOf) {
      FirstHaltDecides(ReadChain, eval, 0);
    }
  }

  // ---------------------------------------------------------------------
  // The records the terminal handlers build

  /** The order `create` pushes. */
  function NewOrder(id: string, data: Payload): Order {
    Order(id, Get(data, "deliverTo"), Undefined, Get(data, "modbileNumber"),
          Get(data, "status"), Get(data, "dishes"))
  }

  /** The order after `update` has assigned its four fields. */
  function Overwrite(order: Order, data: Payload): Order {
    order.(deliverTo := Get(data, "deliverTo"), mobileNumber := Get(data, "mobileNumber"),
           status := Get(data, "status"), dishes := Get(data, "dishes"))
  }

  /** The collection after `findIndex` and `splice(index, 1)`. */
  function Without(orders: seq<Order>, id: string): (r: seq<Order>)
    ensures id !in Ids(orders, IdOf) ==> r == orders
    ensures id in Ids(orders, IdOf) ==> |r| == |orders| - 1
    ensures id in Ids(orders, IdOf) ==>
              exists i :: 0 <= i < |orders| && orders[i].id == id &&
                          (forall j :: 0 <= j < i ==> orders[j].id != id) &&
                          r == orders[..i] + orders[i + 1..]
  {
    match FindFirst(Ids(orders, IdOf), id)
    case None => orders
    case Some(i) => orders[..i] + orders[i + 1..]
  }

  /** With unique ids, a destroyed order is gone and every other order stays. */
  lemma DestroyRemovesOrder(orders: seq<Order>, id: string)
    requires UniqueIds(Ids(orders, IdOf))
    ensures UniqueIds(Ids(Without(orders, id), IdOf))
    ensures id !in Ids(Without(orders, id), IdOf)
    ensures forall o :: o in orders && o.id != id ==> o in Without(orders, id)
  {
    var r := Without(orders, id);
    if id in Ids(orders, IdOf) {
      var i := FindFirst(Ids(orders, IdOf), id).value;
      assert orders[i].id == id;
      assert r == orders[..i] + orders[i + 1..];
      forall k | 0 <= k < i ensures r[k] == orders[k] { }
      forall k | i <= k < |r| ensures r[k] == orders[k + 1] { }
      forall k | 0 <= k < |r| ensures r[k].id != id {
        if k >= i { assert orders[k + 1].id != orders[i].id; }
      }
      forall o | o in orders && o.id != id ensures o in r {
        var k :| 0 <= k < |orders| && orders[k] == o;
        if k < i { assert r[k] == o; } else { assert r[k - 1] == o; }
      }
    }
  }

  // ---------------------------------------------------------------------
  // The collection and the handlers that change it

  class OrderStore {
    var orders: seq<Order>

    /** The collection starts with the seed orders, in their order. */
    constructor (seed: seq<Order>)
      ensures orders == seed
    {
      orders := seed;
    }

    /** `list`: the whole collection, in insertion order. */
    method List() returns (resp: Response<seq<Order>>)
      ensures resp == Data(200, orders)
    {
      resp := Data(200, orders);
    }

    /** `create`: pushes one new order at the end. */
    method Create(freshId: string, data: Payload) returns (order: Order)
      requires freshId !in Ids(orders, IdOf)
      modifies this
      ensures orders == old(orders) + [order]
      ensures order.id == freshId && order.deliverTo == Get(data, "deliverTo")
      ensures order.status == Get(data, "status") && order.dishes == Get(data, "dishes")
      ensures order.mobileNumber == Undefined && order.modbileNumber == Get(data, "modbileNumber")
      ensures UniqueIds(Ids(old(orders), IdOf)) ==> UniqueIds(Ids(orders, IdOf))
    {
      order := NewOrder(freshId, data);
      if UniqueIds(Ids(orders, IdOf)) {
        PushKeepsIdsUnique(orders, IdOf, order);
      }
      orders := orders + [order];
    }

    /** `update`: assigns four fields of the located order in place. */
    method Update(index: nat, data: Payload) returns (order: Order)
      requires index < |orders|
      modifies this
      ensures |orders| == |old(orders)|
      ensures forall j :: 0 <= j < |orders| && j != index ==> orders[j] == old(orders[j])
      ensures order == orders[index]
      ensures order.id == old(orders[index].id)
      ensures order.modbileNumber == old(orders[index].modbileNumber)
      ensures order.deliverTo == Get(data, "deliverTo") && order.mobileNumber == Get(data, "mobileNumber")
      ensures order.status == Get(data, "status") && order.dishes == Get(data, "dishes")
      ensures UniqueIds(Ids(old(orders), IdOf)) ==> UniqueIds(Ids(orders, IdOf))
    {
      order := Overwrite(orders[index], data);
      orders := orders[index := order];
    }

    /** `destroy`: removes the first order with the route id, if there is one. */
    method Destroy(routeId: string)
      modifies this
      ensures orders == Without(old(orders), routeId)
    {
      var index := FindFirst(Ids(orders, IdOf), routeId);
      if index.Some? {
        orders := orders[..index.value] + orders[index.value + 1..];
      }
    }

    /** POST /orders: the create chain, then `create` if it went through. */
    method HandleCreate(freshId: string, data: Payload) returns (resp: Response<Order>)
      requires freshId !in Ids(orders, IdOf)
      modifies this
      ensures CreateOutcome(old(orders), data).Halt? ==>
                resp == Reject(CreateOutcome(old(orders), data)) && orders == old(orders)
      ensures CreateOutcome(old(orders), data) == Continue ==>
                orders == old(orders) + [NewOrder(freshId, data)] &&
                resp == Data(201, NewOrder(freshId, data))
    {
      var outcome := CreateOutcome(orders, data);
      if outcome.Halt? {
        return Reject(outcome);
      }
      var order := Create(freshId, data);
      resp := Data(201, order);
    }

    /** PUT /orders/:orderId: the update chain, then `update` on the located order. */
    method HandleUpdate(routeId: string, data: Payload) returns (resp: Response<Order>)
      modifies this
      ensures UpdateOutcome(old(orders), routeId, data).Halt? ==>
                resp == Reject(UpdateOutcome(old(orders), routeId, data)) && orders == old(orders)
      ensures UpdateOutcome(old(orders), routeId, data) == Continue ==>
                exists i :: 0 <= i < |old(orders)| && FindFirst(Ids(old(orders), IdOf), routeId) == Some(i) &&
                            orders == old(orders)[i := Overwrite(old(orders)[i], data)] &&
                            resp == Data(200, orders[i])
      ensures UniqueIds(Ids(old(orders), IdOf)) ==> UniqueIds(Ids(orders, IdOf))
    {
      var outcome := UpdateOutcome(orders, routeId, data);
      if outcome.Halt? {
        return Reject(outcome);
      }
      UpdateChecksBodyFirst(orders, routeId, data);
      var i := FindFirst(Ids(orders, IdOf), routeId).value;
      var order := Update(i, data);
      resp := Data(200, order);
    }

    /** DELETE /orders/:orderId: the delete chain, then `destroy`. */
    method HandleDelete(routeId: string, data: Payload) returns (resp: Response<Order>)
      modifies this
      ensures DeleteOutcome(old(orders), routeId, data).Halt? ==>
                resp == Reject(DeleteOutcome(old(orders), routeId, data)) && orders == old(orders)
      ensures DeleteOutcome(old(orders), routeId, data) == Continue ==>
                resp == NoContent(204) && orders == Without(old(orders), routeId)
    {
      var outcome := DeleteOutcome(orders, routeId, data);
      if outcome.Halt? {
        return Reject(outcome);
      }
      Destroy(routeId);
      resp := NoContent(204);
    }

    /** GET /orders/:orderId: the read chain, then the located order. */
    method HandleRead(routeId: string, data: Payload) returns (resp: Response<Order>)
      ensures ReadOutcome(orders, routeId, data).Halt? ==>
                resp == Reject(ReadOutcome(orders, routeId, data))
      ensures ReadOutcome(orders, routeId, data) == Continue ==>
                Located(orders, IdOf, routeId).Some? && resp == Data(200, Located(orders, IdOf, routeId).value)
    {
      var outcome := ReadOutcome(orders, routeId, data);
      if outcome.Halt? {
        return Reject(outcome);
      }
      ReadLocates(orders, routeId, data);
      resp := Data(200, Located(orders, IdOf, routeId).value);
    }
  }
}
