/**
 * The dishes controller: the price validator, the three exported chains
 * (update, read, create), the list handler and the in-memory collection of
 * dishes. Dishes are never deleted.
 */
module Dishes {
  import opened Json
  import opened Pipeline

  /** A stored dish; an absent property is `Undefined`. */
  datatype Dish = Dish(id: string, name: Value, description: Value, price: Value, image_url: Value)

  /** The id property, which the locator and `findIndex` compare with the route id. */
  function IdOf(d: Dish): string {
    d.id
  }

  /** `priceVaildator(field)`: the price must be an integer greater than 0. */
  function PriceValidator(data: Payload, field: string): (r: Outcome)
    ensures r == Continue <==> IsPositiveInteger(Get(data, field))
    ensures r != Continue ==> r == Halt(BadRequest, BadPrice)
  {
    var v := Get(data, field);
    if AtMostZero(v) || !IsInteger(v) then Halt(BadRequest, BadPrice) else Continue
  }

  // ---------------------------------------------------------------------
  // Chains

  datatype Stage =
    | CheckProperty(field: string)
    | CheckPrice(field: string)
    | CheckExists

  /** One stage, on the collection as it is, the route id and the body's `data`. */
  function Eval(stage: Stage, dishes: seq<Dish>, routeId: string, data: Payload): Outcome {
    match stage
    case CheckProperty(f) => HasProperty(data, f)
    case CheckPrice(f) => PriceValidator(data, f)
    case CheckExists => Locate(Ids(dishes, IdOf), routeId, Get(data, "id"))
  }

  /** The stages of one request, all seeing the same collection, route id and payload. */
  function Stages(dishes: seq<Dish>, routeId: string, data: Payload): Stage -> Outcome {
    s => Eval(s, dishes, routeId, data)
  }

  /** The update chain looks the dish up between the presence checks. */
  const UpdateChain: seq<Stage> := [
    CheckProperty("name"), CheckProperty("description"), CheckProperty("price"),
    CheckExists, CheckProperty("image_url"), CheckPrice("price")]

  const ReadChain: seq<Stage> := [CheckExists]

  const CreateChain: seq<Stage> := [
    CheckProperty("name"), CheckProperty("description"), CheckProperty("price"),
    CheckProperty("image_url"), CheckPrice("price")]

  /** POST /dishes has no route id; no stage of its chain reads one. */
  function CreateOutcome(dishes: seq<Dish>, data: Payload): Outcome {
    Run(CreateChain, Stages(dishes, "", data))
  }

  function UpdateOutcome(dishes: seq<Dish>, routeId: string, data: Payload): Outcome {
    Run(UpdateChain, Stages(dishes, routeId, data))
  }

  function ReadOutcome(dishes: seq<Dish>, routeId: string, data: Payload): Outcome {
    Run(ReadChain, Stages(dishes, routeId, data))
  }

  /** The create chain lets exactly the payloads with four fields and a positive integer price through. */
  lemma CreateAccepts(dishes: seq<Dish>, data: Payload)
    ensures CreateOutcome(dishes, data) == Continue <==>
              Truthy(Get(data, "name")) && Truthy(Get(data, "description")) &&
              Truthy(Get(data, "image_url")) && IsPositiveInteger(Get(data, "price"))
  {
    var eval := Stages(dishes, "", data);
    assert eval(CreateChain[0]) == HasProperty(data, "name");
    assert eval(CreateChain[1]) == HasProperty(data, "description");
    assert eval(CreateChain[2]) == HasProperty(data, "price");
    assert eval(CreateChain[3]) == HasProperty(data, "image_url");
    assert eval(CreateChain[4]) == PriceValidator(data, "price");
  }

  /** The update chain lets exactly these requests through. */
  lemma UpdateAccepts(dishes: seq<Dish>, routeId: string, data: Payload)
    ensures UpdateOutcome(dishes, routeId, data) == Continue <==>
              Truthy(Get(data, "name")) && Truthy(Get(data, "description")) &&
              Truthy(Get(data, "image_url")) && IsPositiveInteger(Get(data, "price")) &&
              routeId in Ids(dishes, IdOf) && !BodyIdMismatch(Get(data, "id"), routeId)
  {
    var eval := Stages(dishes, routeId, data);
    assert eval(UpdateChain[0]) == HasProperty(data, "name");
    assert eval(UpdateChain[1]) == HasProperty(data, "description");
    assert eval(UpdateChain[2]) == HasProperty(data, "price");
    assert eval(UpdateChain[3]) == Locate(Ids(dishes, IdOf), routeId, Get(data, "id"));
    assert eval(UpdateChain[4]) == HasProperty(data, "image_url");
    assert eval(UpdateChain[5]) == PriceValidator(data, "price");
  }

  /** A price of 0 is falsy, so both chains report it as a missing price, not a bad one. */
  lemma ZeroPriceReportedMissing(dishes: seq<Dish>, routeId: string, data: Payload)
    requires Truthy(Get(data, "name")) && Truthy(Get(data, "description"))
    requires Get(data, "price") == Int(0)
    ensures CreateOutcome(dishes, data) == Halt(BadRequest, MissingField("price"))
    ensures UpdateOutcome(dishes, routeId, data) == Halt(BadRequest, MissingField("price"))
  {
    var create := Stages(dishes, "", data);
    assert create(CreateChain[0]) == Continue && create(CreateChain[1]) == Continue;
    FirstHaltDecides(CreateChain, create, 2);
    var update := Stages(dishes, routeId, data);
    assert update(UpdateChain[0]) == Continue && update(UpdateChain[1]) == Continue;
    FirstHaltDecides(UpdateChain, update, 2);
  }

  /** An unknown id is reported before a missing image_url or a bad price. */
  lemma UpdateNotFoundBeforeImage(dishes: seq<Dish>, routeId: string, data: Payload)
    requires Truthy(Get(data, "name")) && Truthy(Get(data, "description"))
    requires Truthy(Get(data, "price"))
    requires routeId !in Ids(dishes, IdOf)
    ensures UpdateOutcome(dishes, routeId, data) == Halt(NotFoundStatus, NotFound(routeId))
  {
    var eval := Stages(dishes, routeId, data);
    assert eval(UpdateChain[0]) == Continue;
    assert eval(UpdateChain[1]) == Continue;
    assert eval(UpdateChain[2]) == Continue;
    FirstHaltDecides(UpdateChain, eval, 3);
  }

  /** The read chain is the locator alone. */
  lemma ReadLocates(dishes: seq<Dish>, routeId: string, data: Payload)
    ensures ReadOutcome(dishes, routeId, data) == Continue <==>
              routeId in Ids(dishes, IdOf) && !BodyIdMismatch(Get(data, "id"), routeId)
    ensures routeId !in Ids(dishes, IdOf) ==>
              ReadOutcome(dishes, routeId, data) == Halt(NotFoundStatus, NotFound(routeId))
  {
    var eval := Stages(dishes, routeId, data);
    assert eval(ReadChain[0]) == Locate(Ids(dishes, IdOf), routeId, Get(data, "id"));
    if routeId !in Ids(dishes, IdOf) {
      FirstHaltDecides(ReadChain, eval, 0);
    }
  }

  // ---------------------------------------------------------------------
  // The records the terminal handlers build

  /** The dish `create` pushes. */
  function NewDish(id: string, data: Payload): Dish {
    Dish(id, Get(data, "name"), Get(data, "description"), Get(data, "price"), Get(data, "image_url"))
  }

  /** The dish after `update` has assigned its four fields. */
  function Overwrite(dish: Dish, data: Payload): Dish {
    dish.(name := Get(data, "name"), description := Get(data, "description"),
          price := Get(data, "price"), image_url := Get(data, "image_url"))
  }

  /** A dish created under a fresh id is read back with the fields it was given. */
  lemma {:induction false} ReadAfterCreate(dishes: seq<Dish>, freshId: string, data: Payload, query: Payload)
    requires freshId !in Ids(dishes, IdOf)
    requires !BodyIdMismatch(Get(query, "id"), freshId)
    ensures ReadOutcome(dishes + [NewDish(freshId, data)], freshId, query) == Continue
    ensures Located(dishes + [NewDish(freshId, data)], IdOf, freshId) == Some(NewDish(freshId, data))
  {
    var grown := dishes + [NewDish(freshId, data)];
    assert Ids(grown, IdOf) == Ids(dishes, IdOf) + [freshId];
    assert Ids(grown, IdOf)[|dishes|] == freshId;
    var i := FindFirst(Ids(grown, IdOf), freshId).value;
    assert i == |dishes|;
    ReadLocates(grown, freshId, query);
  }

  // ---------------------------------------------------------------------
  // The collection and the handlers that change it

  class DishStore {
    var dishes: seq<Dish>

    /** The collection starts with the seed dishes, in their order. */
    constructor (seed: seq<Dish>)
      ensures dishes == seed
    {
      dishes := seed;
    }

    /** `list`: the whole collection, in insertion order. */
    method List() returns (resp: Response<seq<Dish>>)
      ensures resp == Data(200, dishes)
    {
      resp := Data(200, dishes);
    }

    /** `create`: pushes one new dish at the end. */
    method Create(freshId: string, data: Payload) returns (dish: Dish)
      requires freshId !in Ids(dishes, IdOf)
      modifies this
      ensures dishes == old(dishes) + [dish]
      ensures dish.id == freshId && dish.name == Get(data, "name")
      ensures dish.description == Get(data, "description") && dish.price == Get(data, "price")
      ensures dish.image_url == Get(data, "image_url")
      ensures UniqueIds(Ids(old(dishes), IdOf)) ==> UniqueIds(Ids(dishes, IdOf))
    {
      dish := NewDish(freshId, data);
      if UniqueIds(Ids(dishes, IdOf)) {
        PushKeepsIdsUnique(dishes, IdOf, dish);
      }
      dishes := dishes + [dish];
    }

    /** `update`: assigns four fields of the located dish in place. */
    method Update(index: nat, data: Payload) returns (dish: Dish)
      requires index < |dishes|
      modifies this
      ensures |dishes| == |old(dishes)|
      ensures forall j :: 0 <= j < |dishes| && j != index ==> dishes[j] == old(dishes[j])
      ensures dish == dishes[index] && dish.id == old(dishes[index].id)
      ensures dish.name == Get(data, "name") && dish.description == Get(data, "description")
      ensures dish.price == Get(data, "price") && dish.image_url == Get(data, "image_url")
      ensures UniqueIds(Ids(old(dishes), IdOf)) ==> UniqueIds(Ids(dishes, IdOf))
    {
      dish := Overwrite(dishes[index], data);
      dishes := dishes[index := dish];
    }

    /** POST /dishes: the create chain, then `create` if it went through. */
    method HandleCreate(freshId: string, data: Payload) returns (resp: Response<Dish>)
      requires freshId !in Ids(dishes, IdOf)
      modifies this
      ensures CreateOutcome(old(dishes), data).Halt? ==>
                resp == Reject(CreateOutcome(old(dishes), data)) && dishes == old(dishes)
      ensures CreateOutcome(old(dishes), data) == Continue ==>
                dishes == old(dishes) + [NewDish(freshId, data)] &&
                resp == Data(201, NewDish(freshId, data))
    {
      var outcome := CreateOutcome(dishes, data);
      if outcome.Halt? {
        return Reject(outcome);
      }
      var dish := Create(freshId, data);
      resp := Data(201, dish);
    }

    /** PUT /dishes/:dishId: the update chain, then `update` on the located dish. */
    method HandleUpdate(routeId: string, data: Payload) returns (resp: Response<Dish>)
      modifies this
      ensures UpdateOutcome(old(dishes), routeId, data).Halt? ==>
                resp == Reject(UpdateOutcome(old(dishes), routeId, data)) && dishes == old(dishes)
      ensures UpdateOutcome(old(dishes), routeId, data) == Continue ==>
                exists i :: 0 <= i < |old(dishes)| && FindFirst(Ids(old(dishes), IdOf), routeId) == Some(i) &&
                            dishes == old(dishes)[i := Overwrite(old(dishes)[i], data)] &&
                            resp == Data(200, dishes[i])
      ensures UniqueIds(Ids(old(dishes), IdOf)) ==> UniqueIds(Ids(dishes, IdOf))
    {
      var outcome := UpdateOutcome(dishes, routeId, data);
      if outcome.Halt? {
        return Reject(outcome);
      }
      UpdateAccepts(dishes, routeId, data);
      var i := FindFirst(Ids(dishes, IdOf), routeId).value;
      var dish := Update(i, data);
      resp := Data(200, dish);
    }

    /** GET /dishes/:dishId: the read chain, then the located dish. */
    method HandleRead(routeId: string, data: Payload) returns (resp: Response<Dish>)
      ensures ReadOutcome(dishes, routeId, data).Halt? ==>
                resp == Reject(ReadOutcome(dishes, routeId, data))
      ensures ReadOutcome(dishes, routeId, data) == Continue ==>
                Located(dishes, IdOf, routeId).Some? && resp == Data(200, Located(dishes, IdOf, routeId).value)
    {
      var outcome := ReadOutcome(dishes, routeId, data);
      if outcome.Halt? {
        return Reject(outcome);
      }
      ReadLocates(dishes, routeId, data);
      resp := Data(200, Located(dishes, IdOf, routeId).value);
    }
  }
}
